/** String helpers the migration task relies on: JavaScript's `join(' ')` on an array of
    table names, the inverse split, and prefix stripping used to read a flag back. */
module Strings {

  datatype Option<+T> = None | Some(value: T)

  const Space: char := ' '

  /** `parts.join(' ')`: the parts separated by single spaces; an empty array gives "". */
  function Join(parts: seq<string>): (s: string)
    ensures |parts| == 0 ==> s == ""
    ensures |parts| > 0 ==> parts[0] <= s
    ensures (forall i :: 0 <= i < |parts| ==> Space !in parts[i]) ==> (Space in s <==> |parts| > 1)
    decreases |parts|
  {
    if |parts| == 0 then ""
    else if |parts| == 1 then parts[0]
    else parts[0] + [Space] + Join(parts[1..])
  }

  /** The index of the first space in `s`, or `|s|` when there is none. */
  function FirstSpace(s: string): (i: nat)
    ensures i <= |s|
    ensures forall k :: 0 <= k < i ==> s[k] != Space
    ensures i < |s| ==> s[i] == Space
  {
    if |s| == 0 || s[0] == Space then 0 else 1 + FirstSpace(s[1..])
  }

  /** `s.split(' ')`: the pieces of `s` between its spaces. */
  function Split(s: string): (parts: seq<string>)
    ensures |parts| >= 1
    decreases |s|
  {
    var i := FirstSpace(s);
    if i == |s| then [s] else [s[..i]] + Split(s[i + 1..])
  }

  /** The rest of `s` after `prefix`, when `s` starts with it. */
  function StripPrefix(prefix: string, s: string): (r: Option<string>)
    ensures r.Some? <==> prefix <= s
    ensures r.Some? ==> s == prefix + r.value
  {
    if prefix <= s then Some(s[|prefix|..]) else None
  }

  lemma FirstSpaceAbsent(s: string)
    requires Space !in s
    ensures FirstSpace(s) == |s|
  {
  }

  lemma {:induction false} FirstSpaceOfConcat(a: string, b: string)
    requires Space !in a
    ensures FirstSpace(a + b) == |a| + FirstSpace(b)
  {
    if |a| > 0 {
      assert a[0] in a;
      assert forall c :: c in a[1..] ==> c in a;
      assert (a + b)[1..] == a[1..] + b;
      FirstSpaceOfConcat(a[1..], b);
    } else {
      assert a + b == b;
    }
  }

  /** Joining space-free names and splitting the result gives the names back, so the
      single table argument determines the table list (for a non-empty list). */
  lemma {:induction false} SplitJoin(parts: seq<string>)
    requires |parts| > 0
    requires forall i :: 0 <= i < |parts| ==> Space !in parts[i]
    ensures Split(Join(parts)) == parts
  {
    var head := parts[0];
    if |parts| == 1 {
      FirstSpaceAbsent(head);
    } else {
      var rest := Join(parts[1..]);
      var s := head + [Space] + rest;
      assert Join(parts) == s;
      var i := FirstSpace(s);
      FirstSpaceAbsent(head);
      assert FirstSpace(s) == |head| by {
        assert s == head + ([Space] + rest);
        assert ([Space] + rest)[0] == Space;
        FirstSpaceOfConcat(head, [Space] + rest);
      }
      assert s[|head|] == Space;
      assert i == |head|;
      assert s[..i] == head;
      assert s[i + 1..] == rest;
      SplitJoin(parts[1..]);
      assert parts == [head] + parts[1..];
    }
  }
}
