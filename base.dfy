/** Values and sequence operations shared by the server and the client models.
    The JavaScript array methods the source relies on (`filter`, `findOne`'s
    first match, filtering by index) are defined here once. */
module Base {

  /** A JavaScript value that may be `undefined`. */
  datatype Option<+T> = None | Some(value: T)

  /** A MongoDB ObjectId, abstracted to a natural number. */
  type Id = nat

  /** An HTTP response: an error status with its JSON `message`, or a success
      status with the route's JSON payload. */
  datatype Response<+T> = Fail(status: nat, message: string) | Done(status: nat, value: T)

  /** `a` is obtained from `b` by deleting elements: order kept, nothing added. */
  ghost predicate IsSubsequence<T>(a: seq<T>, b: seq<T>)
    decreases |b|
  {
    if a == [] then true
    else if b == [] then false
    else (a[0] == b[0] && IsSubsequence(a[1..], b[1..])) || IsSubsequence(a, b[1..])
  }

  /** `s.filter(keep)`. */
  function Where<T(==)>(s: seq<T>, keep: T -> bool): (r: seq<T>)
    ensures |r| <= |s|
    ensures forall i :: 0 <= i < |r| ==> r[i] in s && keep(r[i])
    ensures forall i :: 0 <= i < |s| && keep(s[i]) ==> s[i] in r
  {
    if s == [] then []
    else (if keep(s[0]) then [s[0]] else []) + Where(s[1..], keep)
  }

  lemma {:induction false} WhereIsSubsequence<T>(s: seq<T>, keep: T -> bool)
    ensures IsSubsequence(Where(s, keep), s)
  {
    if s != [] {
      WhereIsSubsequence(s[1..], keep);
      var rest := Where(s[1..], keep);
      if keep(s[0]) {
        assert Where(s, keep) == [s[0]] + rest;
        assert ([s[0]] + rest)[1..] == rest;
      } else {
        assert Where(s, keep) == rest;
        if rest != [] {
          assert IsSubsequence(rest, s[1..]);
        }
      }
    }
  }

  /** `filter` neither duplicates nor invents: every kept value occurs exactly
      as often as in the source, every dropped value not at all. */
  lemma {:induction false} WhereCount<T>(s: seq<T>, keep: T -> bool, x: T)
    ensures multiset(Where(s, keep))[x] == if keep(x) then multiset(s)[x] else 0
  {
    if s != [] {
      WhereCount(s[1..], keep, x);
      assert s == [s[0]] + s[1..];
      assert multiset(s) == multiset([s[0]]) + multiset(s[1..]);
    }
  }

  /** `WhereCount` for every value at once. */
  lemma WhereCounts<T>(s: seq<T>, keep: T -> bool)
    ensures forall x :: multiset(Where(s, keep))[x] == if keep(x) then multiset(s)[x] else 0
  {
    forall x
      ensures multiset(Where(s, keep))[x] == if keep(x) then multiset(s)[x] else 0
    {
      WhereCount(s, keep, x);
    }
  }

  /** Filtering distributes over concatenation. */
  lemma {:induction false} WhereAppend<T>(s: seq<T>, t: seq<T>, keep: T -> bool)
    ensures Where(s + t, keep) == Where(s, keep) + Where(t, keep)
  {
    if s == [] {
      assert s + t == t;
    } else {
      assert (s + t)[1..] == s[1..] + t;
      WhereAppend(s[1..], t, keep);
    }
  }

  /** Appending one element to the source appends it to the result exactly
      when it is kept. */
  lemma WhereSnoc<T>(s: seq<T>, x: T, keep: T -> bool)
    ensures Where(s + [x], keep) == Where(s, keep) + (if keep(x) then [x] else [])
  {
    WhereAppend(s, [x], keep);
    assert [x][1..] == [];
  }

  /** A filter that rejects nothing in `s` returns `s` itself. */
  lemma {:induction false} WhereKeepsAll<T>(s: seq<T>, keep: T -> bool)
    requires forall i :: 0 <= i < |s| ==> keep(s[i])
    ensures Where(s, keep) == s
  {
    if s != [] {
      WhereKeepsAll(s[1..], keep);
    }
  }

  /** Filtering by a stricter condition after a looser one is the same as
      filtering the source by the stricter condition alone. */
  lemma {:induction false} WhereNarrowed<T>(s: seq<T>, strict: T -> bool, loose: T -> bool)
    requires forall x :: strict(x) ==> loose(x)
    ensures Where(Where(s, loose), strict) == Where(s, strict)
  {
    if s != [] {
      WhereNarrowed(s[1..], strict, loose);
      var head := if strict(s[0]) then [s[0]] else [];
      assert Where(s, strict) == head + Where(s[1..], strict);
      if loose(s[0]) {
        assert Where(s, loose) == [s[0]] + Where(s[1..], loose);
        WhereAppend([s[0]], Where(s[1..], loose), strict);
        assert [s[0]][1..] == [];
        assert Where([s[0]], strict) == head;
      } else {
        assert Where(s, loose) == Where(s[1..], loose);
        assert head == [];
      }
    }
  }

  /** Position of the first element satisfying `p`: the document `findOne`
      returns when the store is scanned in insertion order. */
  function FindIndex<T>(s: seq<T>, p: T -> bool): (r: Option<nat>)
    ensures r.Some? ==> r.value < |s| && p(s[r.value])
    ensures r.Some? ==> forall j :: 0 <= j < r.value ==> !p(s[j])
    ensures r.None? <==> forall j :: 0 <= j < |s| ==> !p(s[j])
  {
    if s == [] then None
    else if p(s[0]) then Some(0)
    else match FindIndex(s[1..], p)
      case None => None
      case Some(k) => Some(k + 1)
  }

  /** The first element satisfying `p`, if any. */
  function FindFirst<T>(s: seq<T>, p: T -> bool): (r: Option<T>)
    ensures r.Some? ==> r.value in s && p(r.value)
    ensures r.None? <==> forall j :: 0 <= j < |s| ==> !p(s[j])
  {
    match FindIndex(s, p)
    case None => None
    case Some(k) => Some(s[k])
  }

  /** `s.filter((_, i) => i !== index)`: every position but `index` is kept,
      so an index outside the sequence removes nothing. */
  function DropIndex<T>(s: seq<T>, index: int): (r: seq<T>)
    ensures 0 <= index < |s| ==> |r| == |s| - 1 && r == s[..index] + s[index + 1..]
    ensures !(0 <= index < |s|) ==> r == s
  {
    if s == [] then []
    else (if index == 0 then [] else [s[0]]) + DropIndex(s[1..], index - 1)
  }
}
