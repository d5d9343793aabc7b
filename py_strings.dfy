/** The Python str (and bytes) operations the core relies on: `sub in s`,
    `s.partition(sep)`, `s.lower()`, `s.strip()` and `"".join(parts)`.
    A bytes line is modelled as a string with one character per byte. */
module PyStrings {
  import opened PyValues

  /** `sub` occurs in `s` starting at index `i`. */
  predicate OccursAt(s: string, sub: string, i: nat) {
    i + |sub| <= |s| && s[i..i + |sub|] == sub
  }

  /** The least index at or after `from` where `sub` occurs in `s`, if any
      (`s.find(sub, from)`); FindFromIsLeast states what it finds. */
  function FindFrom(s: string, sub: string, from: nat): (r: Option<nat>)
    decreases |s| - from
    ensures r.Some? ==> from <= r.value && r.value + |sub| <= |s|
  {
    if from + |sub| > |s| then None
    else if s[from..from + |sub|] == sub then Some(from)
    else FindFrom(s, sub, from + 1)
  }

  lemma {:induction false} FindFromIsLeast(s: string, sub: string, from: nat)
    decreases |s| - from
    ensures FindFrom(s, sub, from).Some? ==>
              from <= FindFrom(s, sub, from).value && OccursAt(s, sub, FindFrom(s, sub, from).value)
    ensures forall j: nat :: from <= j && OccursAt(s, sub, j) ==>
              FindFrom(s, sub, from).Some? && FindFrom(s, sub, from).value <= j
  {
    if from + |sub| <= |s| && s[from..from + |sub|] != sub {
      FindFromIsLeast(s, sub, from + 1);
    }
  }

  /** Python's `sub in s`. */
  function Contains(s: string, sub: string): bool {
    FindFrom(s, sub, 0).Some?
  }

  lemma ContainsIffOccurs(s: string, sub: string)
    ensures Contains(s, sub) <==> exists j: nat :: OccursAt(s, sub, j)
  {
    FindFromIsLeast(s, sub, 0);
  }

  datatype Parts = Parts(before: string, found: string, after: string)

  /** Python's `s.partition(sep)`: split at the first occurrence of `sep`,
      wherever it stands; without one, `(s, "", "")`. PartitionSplitsAtFirst
      states its properties. */
  function Partition(s: string, sep: string): Parts
    requires sep != ""
  {
    match FindFrom(s, sep, 0)
    case Some(k) => Parts(s[..k], sep, s[k + |sep|..])
    case None => Parts(s, "", "")
  }

  lemma PartitionSplitsAtFirst(s: string, sep: string)
    requires sep != ""
    ensures var p := Partition(s, sep);
      && p.before + p.found + p.after == s
      && (p.found == sep <==> Contains(s, sep))
      && (p.found != sep ==> p.found == "" && p.before == s)
      && (p.found == sep ==> OccursAt(s, sep, |p.before|))
      && (forall j: nat :: OccursAt(s, sep, j) ==> |p.before| <= j)
  {
    FindFromIsLeast(s, sep, 0);
    var p := Partition(s, sep);
    if p.found == sep {
      assert s == s[..|p.before|] + sep + s[|p.before| + |sep|..];
    }
  }

  function LowerChar(c: char): char {
    if 'A' <= c <= 'Z' then (c as int + 32) as char else c
  }

  /** `s.lower()` on the ASCII letters. */
  function Lower(s: string): (r: string)
    ensures |r| == |s|
    ensures forall i :: 0 <= i < |s| ==> r[i] == LowerChar(s[i])
  {
    if s == "" then "" else [LowerChar(s[0])] + Lower(s[1..])
  }

  lemma LowerIdempotent(s: string)
    ensures Lower(Lower(s)) == Lower(s)
  {
    assert forall i :: 0 <= i < |s| ==> Lower(Lower(s))[i] == Lower(s)[i];
  }

  /** The characters for which Python's `str.isspace()` holds, the ones
      `str.strip()` removes. */
  predicate IsSpace(c: char) {
    ('\t' <= c <= '\r') || ('\U{1c}' <= c <= ' ') || c == '\U{85}' || c == '\U{a0}'
    || c == '\U{1680}' || ('\U{2000}' <= c <= '\U{200a}') || c == '\U{2028}' || c == '\U{2029}'
    || c == '\U{202f}' || c == '\U{205f}' || c == '\U{3000}'
  }

  function TrimStart(s: string): (r: string)
    ensures |r| <= |s| && r == s[|s| - |r|..]
    ensures forall i :: 0 <= i < |s| - |r| ==> IsSpace(s[i])
    ensures r != "" ==> !IsSpace(r[0])
  {
    if s != "" && IsSpace(s[0]) then TrimStart(s[1..]) else s
  }

  function TrimEnd(s: string): (r: string)
    ensures |r| <= |s| && r == s[..|r|]
    ensures forall i :: |r| <= i < |s| ==> IsSpace(s[i])
    ensures r != "" ==> !IsSpace(r[|r| - 1])
  {
    if s != "" && IsSpace(s[|s| - 1]) then TrimEnd(s[..|s| - 1]) else s
  }

  /** `r` is the part of `s` starting at `i`, and everything before and after
      it is whitespace. */
  predicate TrimmedAt(s: string, r: string, i: nat) {
    i + |r| <= |s| && r == s[i..i + |r|]
    && (forall k :: 0 <= k < i ==> IsSpace(s[k]))
    && (forall k :: i + |r| <= k < |s| ==> IsSpace(s[k]))
  }

  /** Python's `s.strip()`: the longest middle part of `s` that neither starts
      nor ends with whitespace; everything cut off is whitespace. */
  function Strip(s: string): (r: string)
    ensures exists i: nat :: TrimmedAt(s, r, i)
    ensures r != "" ==> !IsSpace(r[0]) && !IsSpace(r[|r| - 1])
  {
    var t := TrimStart(s);
    var r := TrimEnd(t);
    assert TrimmedAt(s, r, |s| - |t|);
    r
  }

  /** `"".join(parts)`. */
  function Concat(parts: seq<string>): string {
    if parts == [] then "" else parts[0] + Concat(parts[1..])
  }

  lemma {:induction false} ConcatAppend(a: seq<string>, b: seq<string>)
    ensures Concat(a + b) == Concat(a) + Concat(b)
  {
    if a == [] {
      assert a + b == b;
    } else {
      assert (a + b)[1..] == a[1..] + b;
      ConcatAppend(a[1..], b);
    }
  }
}
