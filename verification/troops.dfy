/** A country's troop list. The source keeps each country's troop groups as a
    Python list of `[x, y]` coordinate pairs and searches, removes and filters
    it by value; here the list is a sequence of positions with the same
    by-value operations. */
module Troops {
  import opened Grid

  /** k troop groups standing on p: what the moved groups look like after
      their coordinates are overwritten with the destination (war.py:298-300). */
  function Copies(p: Pos, k: nat): (s: seq<Pos>)
    ensures |s| == k && forall j :: 0 <= j < k ==> s[j] == p
  {
    seq(k, _ => p)
  }

  lemma CopiesCount(p: Pos, k: nat)
    ensures multiset(Copies(p, k)) == multiset{}[p := k]
  {
    if k > 0 {
      assert Copies(p, k) == Copies(p, k - 1) + [p];
      CopiesCount(p, k - 1);
    } else {
      assert Copies(p, k) == [];
    }
  }

  /** The index of the earliest entry equal to v. */
  function FirstIndex(s: seq<Pos>, v: Pos): (j: nat)
    requires v in s
    ensures j < |s| && s[j] == v && v !in s[..j]
  {
    if s[0] == v then 0
    else
      var j := FirstIndex(s[1..], v) + 1;
      assert s[..j] == [s[0]] + s[1..][..j - 1];
      j
  }

  /** `if v in s: s.remove(v)`: the earliest entry equal to v is dropped, if any. */
  function RemoveFirst(s: seq<Pos>, v: Pos): (r: seq<Pos>)
    ensures forall e :: multiset(r)[e] == if e == v && v in s then multiset(s)[e] - 1 else multiset(s)[e]
  {
    if v in s then
      var j := FirstIndex(s, v);
      assert s == s[..j] + [s[j]] + s[j + 1..];
      s[..j] + s[j + 1..]
    else s
  }

  /** How many of n entries are left after up to k of them are removed. */
  function Deplete(n: nat, k: nat): nat
  {
    if n >= k then n - k else 0
  }

  /** `for troop in moved: if troop in s: s.remove(troop)` where the k moved
      groups all stand on v: up to k entries equal to v are dropped and no
      other entry is touched. */
  function RemoveEach(s: seq<Pos>, v: Pos, k: nat): (r: seq<Pos>)
    ensures forall e :: multiset(r)[e] == if e == v then Deplete(multiset(s)[e], k) else multiset(s)[e]
  {
    if k == 0 then s else RemoveFirst(RemoveEach(s, v, k - 1), v)
  }

  /** The list comprehension `[t for t in s if t in keep]`. */
  function KeepIn(s: seq<Pos>, keep: seq<Pos>): (r: seq<Pos>)
    ensures forall t :: multiset(r)[t] == if t in keep then multiset(s)[t] else 0
  {
    if s == [] then []
    else
      assert s == [s[0]] + s[1..];
      (if s[0] in keep then [s[0]] else []) + KeepIn(s[1..], keep)
  }
}
