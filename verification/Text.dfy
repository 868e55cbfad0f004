/** The few string operations the runner's decisions depend on: the byte order
    used by SQLite and Go when they sort text, trimming, and case folding. */
module Text {

  datatype Option<+T> = None | Some(value: T)

  /** Strict lexicographic order on text. */
  predicate Less(a: string, b: string) {
    b != [] && (a == [] || a[0] < b[0] || (a[0] == b[0] && Less(a[1..], b[1..])))
  }

  lemma {:induction false} LessIrreflexive(a: string)
    ensures !Less(a, a)
  {
    if a != [] { LessIrreflexive(a[1..]); }
  }

  lemma {:induction false} LessTransitive(a: string, b: string, c: string)
    requires Less(a, b) && Less(b, c)
    ensures Less(a, c)
  {
    if a != [] && a[0] == b[0] == c[0] { LessTransitive(a[1..], b[1..], c[1..]); }
  }

  lemma {:induction false} LessTotal(a: string, b: string)
    ensures a == b || Less(a, b) || Less(b, a)
  {
    if a != [] && b != [] && a[0] == b[0] {
      LessTotal(a[1..], b[1..]);
      assert a == [a[0]] + a[1..] && b == [b[0]] + b[1..];
    }
  }

  /** The characters Go's unicode.IsSpace accepts. */
  predicate IsSpace(c: char) {
    || '\t' <= c <= '\r' || c == ' ' || c == '\U{0085}' || c == '\U{00A0}' || c == '\U{1680}'
    || '\U{2000}' <= c <= '\U{200A}' || c == '\U{2028}' || c == '\U{2029}' || c == '\U{202F}'
    || c == '\U{205F}' || c == '\U{3000}'
  }

  function TrimLeft(s: string): string {
    if s != [] && IsSpace(s[0]) then TrimLeft(s[1..]) else s
  }

  function TrimRight(s: string): string {
    if s != [] && IsSpace(s[|s| - 1]) then TrimRight(s[..|s| - 1]) else s
  }

  function TrimSpace(s: string): string {
    TrimRight(TrimLeft(s))
  }

  predicate Blank(s: string) {
    TrimSpace(s) == ""
  }

  /** The first text that is not blank, or the last one. */
  function FirstNonBlank(a: string, b: string): string {
    if Blank(a) then b else a
  }

  /** strings.TrimSpace leaves text without surrounding white space alone. */
  predicate Trimmed(s: string) {
    s != [] ==> !IsSpace(s[0]) && !IsSpace(s[|s| - 1])
  }

  lemma TrimmedUnchanged(s: string)
    requires Trimmed(s)
    ensures TrimSpace(s) == s
  {
  }

  /** Trimming takes off white space at both ends, all of it and nothing else. */
  lemma {:induction false} TrimRightSplits(s: string)
    ensures TrimRight(s) <= s
    ensures TrimRight(s) != "" ==> !IsSpace(TrimRight(s)[|TrimRight(s)| - 1])
    ensures forall k :: |TrimRight(s)| <= k < |s| ==> IsSpace(s[k])
  {
    if s != [] && IsSpace(s[|s| - 1]) { TrimRightSplits(s[..|s| - 1]); }
  }

  lemma {:induction false} TrimLeftSplits(s: string) returns (k: nat)
    ensures k <= |s| && TrimLeft(s) == s[k..] && (forall j :: 0 <= j < k ==> IsSpace(s[j]))
    ensures k < |s| ==> !IsSpace(s[k])
  {
    if s != [] && IsSpace(s[0]) {
      var j := TrimLeftSplits(s[1..]);
      k := j + 1;
    } else {
      k := 0;
    }
  }

  lemma TrimSpaceSplits(s: string) returns (before: nat, after: nat)
    ensures before <= after <= |s| && TrimSpace(s) == s[before..after] && Trimmed(TrimSpace(s))
    ensures forall k :: 0 <= k < before || after <= k < |s| ==> IsSpace(s[k])
  {
    before := TrimLeftSplits(s);
    TrimRightSplits(s[before..]);
    after := before + |TrimSpace(s)|;
    assert TrimSpace(s) <= s[before..];
  }

  /** Text is blank if and only if it is white space throughout. */
  lemma BlankExactly(s: string)
    ensures Blank(s) <==> forall k :: 0 <= k < |s| ==> IsSpace(s[k])
  {
    var before, after := TrimSpaceSplits(s);
    if !Blank(s) { assert TrimSpace(s)[0] == s[before]; }
  }

  /** Lower case; only ASCII letters and the two code points that lower to one
      of them are mapped, which is exact when comparing with ASCII text. */
  function LowerChar(c: char): char {
    if 'A' <= c <= 'Z' then ((c as int - 'A' as int) + 'a' as int) as char
    else if c == '\U{212A}' then 'k'
    else if c == '\U{0130}' then 'i'
    else c
  }

  function ToLower(s: string): string {
    seq(|s|, i requires 0 <= i < |s| => LowerChar(s[i]))
  }

  /** Simple case folding as strings.EqualFold uses it, on ASCII and on the
      two code points that fold onto an ASCII letter. */
  function FoldChar(c: char): char {
    if c == '\U{017F}' then 's' else if c == '\U{0130}' then c else LowerChar(c)
  }

  predicate EqualFold(a: string, b: string) {
    |a| == |b| && forall i :: 0 <= i < |a| ==> FoldChar(a[i]) == FoldChar(b[i])
  }

  predicate IsLetter(c: char) {
    'a' <= c <= 'z' || 'A' <= c <= 'Z'
  }

  /** On ASCII text folding joins a letter with its other case, and nothing else. */
  lemma FoldOfASCII(a: char, b: char)
    requires a < '\U{0080}' && b < '\U{0080}'
    ensures FoldChar(a) == FoldChar(b) <==>
      a == b || (IsLetter(a) && IsLetter(b) && (a as int - b as int == 32 || b as int - a as int == 32))
    ensures LowerChar(a) == FoldChar(a) && (LowerChar(a) == a <==> !('A' <= a <= 'Z'))
  {
  }

  /** Equality up to case is an equivalence, and lower case does not leave it. */
  lemma EqualFoldIsAnEquivalence(a: string, b: string, c: string)
    ensures EqualFold(a, a)
    ensures EqualFold(a, b) ==> EqualFold(b, a)
    ensures EqualFold(a, b) && EqualFold(b, c) ==> EqualFold(a, c)
    ensures (forall k :: 0 <= k < |a| ==> a[k] < '\U{0080}') ==> EqualFold(a, ToLower(a))
  {
    if forall k :: 0 <= k < |a| ==> a[k] < '\U{0080}' {
      forall k | 0 <= k < |a| ensures FoldChar(a[k]) == FoldChar(ToLower(a)[k]) { FoldOfASCII(a[k], a[k]); }
    }
  }
}
