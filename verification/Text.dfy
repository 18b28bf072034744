/** Strings as the Go and JavaScript sources use them: a string is a sequence of
    code points, ordered lexicographically. */
module Text {

  datatype Option<+T> = None | Some(value: T)

  // ---------------------------------------------------------------------
  // Order
  // ---------------------------------------------------------------------

  predicate Less(a: string, b: string) {
    if b == "" then false
    else if a == "" then true
    else a[0] < b[0] || (a[0] == b[0] && Less(a[1..], b[1..]))
  }

  lemma {:induction false} LessIsTotal(a: string, b: string)
    ensures a == b || Less(a, b) || Less(b, a)
    ensures !(Less(a, b) && (a == b || Less(b, a)))
  {
    if a != "" && b != "" && a[0] == b[0] {
      LessIsTotal(a[1..], b[1..]);
      assert a == [a[0]] + a[1..] && b == [b[0]] + b[1..];
    }
  }

  lemma {:induction false} LessIsTransitive(a: string, b: string, c: string)
    requires Less(a, b) && Less(b, c)
    ensures Less(a, c)
  {
    if a != "" && a[0] == b[0] == c[0] {
      LessIsTransitive(a[1..], b[1..], c[1..]);
    }
  }

  /** A proper prefix comes first; otherwise the first difference decides. */
  lemma {:induction false} LessIff(a: string, b: string)
    ensures Less(a, b) <==>
      exists n: nat :: n <= |a| && n < |b| && a[..n] == b[..n] && (n == |a| || a[n] < b[n])
  {
    if a != "" && b != "" && a[0] == b[0] {
      LessIff(a[1..], b[1..]);
      if Less(a, b) {
        var n: nat :| n <= |a[1..]| && n < |b[1..]| && a[1..][..n] == b[1..][..n] &&
                      (n == |a[1..]| || a[1..][n] < b[1..][n]);
        assert a[..n + 1] == [a[0]] + a[1..][..n] && b[..n + 1] == [b[0]] + b[1..][..n];
      }
      if n: nat :| n <= |a| && n < |b| && a[..n] == b[..n] && (n == |a| || a[n] < b[n]) {
        assert a[1..][..n - 1] == a[..n][1..] && b[1..][..n - 1] == b[..n][1..];
      }
    } else if a == "" && b != "" {
      assert a[..0] == b[..0];
    } else if a != "" && b != "" {
      assert a[..0] == b[..0];
      assert forall n: nat :: 0 < n <= |a| && n <= |b| && a[..n] == b[..n] ==> a[..n][0] == b[..n][0];
    }
  }

  predicate StrictlySorted(s: seq<string>) {
    forall i, j :: 0 <= i < j < |s| ==> Less(s[i], s[j])
  }

  /** `x` put in its place of a strictly sorted sequence, unless it is there already. */
  function Insert(s: seq<string>, x: string): (r: seq<string>) {
    if s == [] then [x]
    else if s[0] == x then s
    else if Less(x, s[0]) then [x] + s
    else [s[0]] + Insert(s[1..], x)
  }

  lemma {:induction false} InsertHasAll(s: seq<string>, x: string)
    ensures forall y :: y in Insert(s, x) <==> y == x || y in s
  {
    if s != [] && s[0] != x && !Less(x, s[0]) {
      InsertHasAll(s[1..], x);
      assert s == [s[0]] + s[1..];
    }
  }

  lemma {:induction false} InsertKeepsSorted(s: seq<string>, x: string)
    requires StrictlySorted(s)
    ensures StrictlySorted(Insert(s, x))
  {
    if s == [] || s[0] == x {
    } else if Less(x, s[0]) {
      forall j | 1 <= j < |s|
        ensures Less(x, s[j])
      {
        LessIsTransitive(x, s[0], s[j]);
      }
    } else {
      LessIsTotal(s[0], x);
      InsertKeepsSorted(s[1..], x);
      InsertHasAll(s[1..], x);
      var rest := Insert(s[1..], x);
      forall j | 0 <= j < |rest|
        ensures Less(s[0], rest[j])
      {
        assert rest[j] in rest;
      }
    }
  }

  // ---------------------------------------------------------------------
  // White space
  // ---------------------------------------------------------------------

  /** `unicode.IsSpace`. */
  predicate IsSpace(c: char) {
    || '\t' <= c <= '\r'
    || c == ' ' || c == '\U{85}' || c == '\U{A0}' || c == '\U{1680}'
    || '\U{2000}' <= c <= '\U{200A}'
    || c == '\U{2028}' || c == '\U{2029}' || c == '\U{202F}' || c == '\U{205F}' || c == '\U{3000}'
  }

  function TrimLeft(s: string): string {
    if s != "" && IsSpace(s[0]) then TrimLeft(s[1..]) else s
  }

  function TrimRight(s: string): string {
    if s != "" && IsSpace(s[|s| - 1]) then TrimRight(s[..|s| - 1]) else s
  }

  /** `strings.TrimSpace`. */
  function Trim(s: string): string {
    TrimRight(TrimLeft(s))
  }

  /** White space of JavaScript, for `trim` and `\s`. */
  predicate IsJSSpace(c: char) {
    || '\t' <= c <= '\r'
    || c == ' ' || c == '\U{A0}' || c == '\U{1680}'
    || '\U{2000}' <= c <= '\U{200A}'
    || c == '\U{2028}' || c == '\U{2029}' || c == '\U{202F}' || c == '\U{205F}' || c == '\U{3000}' || c == '\U{FEFF}'
  }

  function TrimStart(s: string): string {
    if s != "" && IsJSSpace(s[0]) then TrimStart(s[1..]) else s
  }

  function TrimEnd(s: string): string {
    if s != "" && IsJSSpace(s[|s| - 1]) then TrimEnd(s[..|s| - 1]) else s
  }

  /** JavaScript's `trim`. */
  function JSTrim(s: string): string {
    TrimEnd(TrimStart(s))
  }

  lemma {:induction false} TrimLeftStartsClean(s: string)
    ensures TrimLeft(s) != "" ==> !IsSpace(TrimLeft(s)[0])
  {
    if s != "" && IsSpace(s[0]) { TrimLeftStartsClean(s[1..]); }
  }

  lemma {:induction false} TrimRightKeepsStart(s: string)
    ensures TrimRight(s) <= s
    ensures s != "" && !IsSpace(s[0]) ==> TrimRight(s) != ""
    ensures TrimRight(s) != "" ==> !IsSpace(TrimRight(s)[|TrimRight(s)| - 1])
  {
    if s != "" && IsSpace(s[|s| - 1]) { TrimRightKeepsStart(s[..|s| - 1]); }
  }

  /** `r` is what is left of `s`, from `i`, when white space is taken off both ends. */
  ghost predicate IsMiddle(s: string, r: string, i: nat) {
    && i + |r| <= |s| && r == s[i..i + |r|]
    && (forall k :: 0 <= k < i || i + |r| <= k < |s| ==> IsSpace(s[k]))
    && (r != "" ==> !IsSpace(r[0]) && !IsSpace(r[|r| - 1]))
  }

  lemma {:induction false} TrimLeftIsSuffix(s: string)
    ensures exists i: nat :: i <= |s| && TrimLeft(s) == s[i..] && forall k :: 0 <= k < i ==> IsSpace(s[k])
  {
    if s != "" && IsSpace(s[0]) {
      TrimLeftIsSuffix(s[1..]);
      var i: nat :| i <= |s[1..]| && TrimLeft(s[1..]) == s[1..][i..] && forall k :: 0 <= k < i ==> IsSpace(s[1..][k]);
      assert s[1..][i..] == s[i + 1..];
      forall k | 1 <= k < i + 1
        ensures IsSpace(s[k])
      {
        assert s[1..][k - 1] == s[k];
      }
    } else {
      assert s[0..] == s;
    }
  }

  lemma {:induction false} TrimRightIsPrefix(s: string)
    ensures TrimRight(s) <= s && forall k :: |TrimRight(s)| <= k < |s| ==> IsSpace(s[k])
  {
    if s != "" && IsSpace(s[|s| - 1]) { TrimRightIsPrefix(s[..|s| - 1]); }
  }

  /** `Trim` takes off white space and nothing else. */
  lemma TrimIsTheMiddle(s: string)
    ensures exists i: nat :: IsMiddle(s, Trim(s), i)
  {
    var rest := TrimLeft(s);
    TrimLeftIsSuffix(s);
    TrimLeftStartsClean(s);
    TrimRightKeepsStart(rest);
    TrimRightIsPrefix(rest);
    var i: nat :| i <= |s| && rest == s[i..] && forall k :: 0 <= k < i ==> IsSpace(s[k]);
    EndsAreSpace(s, Trim(s), rest, i);
  }

  lemma EndsAreSpace(s: string, r: string, rest: string, i: nat)
    requires i <= |s| && rest == s[i..] && forall k :: 0 <= k < i ==> IsSpace(s[k])
    requires r <= rest && (forall k :: |r| <= k < |rest| ==> IsSpace(rest[k]))
    requires r != "" ==> !IsSpace(rest[0]) && !IsSpace(r[|r| - 1])
    ensures IsMiddle(s, r, i)
  {
    forall k | i + |r| <= k < |s|
      ensures IsSpace(s[k])
    {
      assert s[k] == rest[k - i];
    }
  }

  lemma TrimIsIdempotent(s: string)
    ensures Trim(Trim(s)) == Trim(s)
  {
    TrimLeftStartsClean(s);
    TrimRightKeepsStart(TrimLeft(s));
  }

  // ---------------------------------------------------------------------
  // Normalized string sets
  // ---------------------------------------------------------------------

  /** `normalizedStrings` and `normalizeRedaction`: trimmed, without blanks and duplicates, sorted. */
  function NormalizedStrings(values: seq<string>): seq<string> {
    if values == [] then []
    else
      var rest := NormalizedStrings(values[..|values| - 1]);
      var value := Trim(values[|values| - 1]);
      if value == "" then rest else Insert(rest, value)
  }

  /** The set of names a report stands for. */
  ghost predicate Reports(values: seq<string>, name: string) {
    name != "" && exists i :: 0 <= i < |values| && Trim(values[i]) == name
  }

  lemma {:induction false} NormalizedStringsAreTheReport(values: seq<string>)
    ensures StrictlySorted(NormalizedStrings(values))
    ensures forall name :: name in NormalizedStrings(values) <==> Reports(values, name)
  {
    if values != [] {
      var init, last := values[..|values| - 1], values[|values| - 1];
      NormalizedStringsAreTheReport(init);
      if Trim(last) != "" {
        InsertKeepsSorted(NormalizedStrings(init), Trim(last));
        InsertHasAll(NormalizedStrings(init), Trim(last));
      }
      forall name
        ensures Reports(values, name) <==> Reports(init, name) || (name != "" && Trim(last) == name)
      {
        if Reports(init, name) {
          var i :| 0 <= i < |init| && Trim(init[i]) == name;
          assert values[i] == init[i];
        }
        if Reports(values, name) {
          var i :| 0 <= i < |values| && Trim(values[i]) == name;
          assert i < |init| ==> init[i] == values[i];
        }
        if name != "" && Trim(last) == name {
          assert Trim(values[|values| - 1]) == name;
        }
      }
    }
  }

  method Normalize(values: seq<string>) returns (result: seq<string>)
    ensures result == NormalizedStrings(values)
  {
    result := [];
    for i := 0 to |values|
      invariant result == NormalizedStrings(values[..i])
    {
      assert values[..i + 1][..i] == values[..i];
      var value := Trim(values[i]);
      if value != "" {
        result := Insert(result, value);
      }
    }
    assert values[..|values|] == values;
  }

  lemma {:induction false} InsertAtEnd(s: seq<string>, x: string)
    requires forall i :: 0 <= i < |s| ==> Less(s[i], x)
    ensures Insert(s, x) == s + [x]
  {
    if s != [] {
      LessIsTotal(s[0], x);
      InsertAtEnd(s[1..], x);
      assert s == [s[0]] + s[1..];
    }
  }

  predicate IsClean(x: string) {
    x != "" && Trim(x) == x
  }

  lemma {:induction false} NormalizedIsFixed(s: seq<string>)
    requires StrictlySorted(s) && forall i :: 0 <= i < |s| ==> IsClean(s[i])
    ensures NormalizedStrings(s) == s
  {
    if s != [] {
      var init, last := s[..|s| - 1], s[|s| - 1];
      assert IsClean(last);
      NormalizedIsFixed(init);
      InsertAtEnd(init, last);
      assert s == init + [last];
    }
  }

  lemma NormalizationIsIdempotent(values: seq<string>)
    ensures NormalizedStrings(NormalizedStrings(values)) == NormalizedStrings(values)
  {
    var s := NormalizedStrings(values);
    NormalizedStringsAreTheReport(values);
    forall j | 0 <= j < |s|
      ensures IsClean(s[j])
    {
      assert Reports(values, s[j]);
      var i :| 0 <= i < |values| && Trim(values[i]) == s[j];
      TrimIsIdempotent(values[i]);
    }
    NormalizedIsFixed(s);
  }
}
