/** Named string properties: a set of (name, value) items ordered and
    compared by name alone, so the first value stored under a name wins. */
module Props {
  import opened Wrappers

  datatype Item = Item(name: string, value: string)

  /** `std::string` `operator<`: lexicographic by character code. */
  predicate Less(a: string, b: string)
    decreases |a|
  {
    if b == [] then false
    else if a == [] then true
    else if a[0] != b[0] then a[0] < b[0]
    else Less(a[1..], b[1..])
  }

  lemma {:induction false} LessIrreflexive(a: string)
    ensures !Less(a, a)
    decreases |a|
  {
    if a != [] {
      LessIrreflexive(a[1..]);
    }
  }

  lemma {:induction false} LessTransitive(a: string, b: string, c: string)
    requires Less(a, b) && Less(b, c)
    ensures Less(a, c)
    decreases |a|
  {
    if a != [] && a[0] == b[0] && b[0] == c[0] {
      LessTransitive(a[1..], b[1..], c[1..]);
    }
  }

  /** Two names neither of which is less than the other are the same name. */
  lemma {:induction false} LessTotal(a: string, b: string)
    requires a != b
    ensures Less(a, b) || Less(b, a)
    decreases |a|
  {
    if a != [] && b != [] && a[0] == b[0] {
      assert a == [a[0]] + a[1..] && b == [b[0]] + b[1..];
      LessTotal(a[1..], b[1..]);
    }
  }

  /** The container's ordering: strictly ascending names. */
  ghost predicate SortedByName(s: seq<Item>) {
    forall i, j :: 0 <= i < j < |s| ==> Less(s[i].name, s[j].name)
  }

  lemma SortedTail(s: seq<Item>)
    requires SortedByName(s) && s != []
    ensures SortedByName(s[1..])
  {
    forall i, j | 0 <= i < j < |s| - 1 ensures Less(s[1..][i].name, s[1..][j].name) {
      assert s[1..][i] == s[i + 1] && s[1..][j] == s[j + 1];
    }
  }

  lemma SortedCons(x: Item, t: seq<Item>)
    requires SortedByName(t) && forall k :: 0 <= k < |t| ==> Less(x.name, t[k].name)
    ensures SortedByName([x] + t)
  {
    forall i, j | 0 <= i < j < |t| + 1 ensures Less(([x] + t)[i].name, ([x] + t)[j].name) {
      assert ([x] + t)[j] == t[j - 1];
      if i > 0 {
        assert ([x] + t)[i] == t[i - 1];
      }
    }
  }

  /** `std::set::find(Item{name})`: the item stored under `name`. */
  function Find(s: seq<Item>, name: string): (r: Option<Item>)
    ensures r.Some? <==> exists i :: 0 <= i < |s| && s[i].name == name
    ensures r.Some? ==> r.value in s && r.value.name == name
  {
    if s == [] then None
    else if s[0].name == name then Some(s[0])
    else
      var r := Find(s[1..], name);
      assert forall i :: 1 <= i < |s| ==> s[i] == s[1..][i - 1];
      r
  }

  /** `std::set::insert(it)`: the new contents and whether `it` went in.
      An item whose name is already present is refused whatever its value. */
  function Insert(s: seq<Item>, it: Item): (r: (seq<Item>, bool))
    decreases |s|
  {
    if s == [] then ([it], true)
    else if Less(it.name, s[0].name) then ([it] + s, true)
    else if s[0].name == it.name then (s, false)
    else
      var (t, ok) := Insert(s[1..], it);
      ([s[0]] + t, ok)
  }

  /** Insertion adds exactly the new item, or nothing when its name was
      taken (first wins). */
  lemma {:induction false} InsertContents(s: seq<Item>, it: Item)
    requires SortedByName(s)
    ensures var (t, ok) := Insert(s, it);
      && (ok <==> Find(s, it.name).None?)
      && (ok ==> multiset(t) == multiset(s) + multiset{it})
      && (!ok ==> t == s)
    decreases |s|
  {
    if s == [] {
    } else if Less(it.name, s[0].name) {
      forall j | 0 <= j < |s| ensures s[j].name != it.name {
        LessIrreflexive(s[j].name);
        if j > 0 && s[j].name == it.name {
          LessTransitive(it.name, s[0].name, s[j].name);
        }
      }
    } else if s[0].name == it.name {
    } else {
      SortedTail(s);
      InsertContents(s[1..], it);
      assert s == [s[0]] + s[1..];
      assert Find(s, it.name) == Find(s[1..], it.name);
    }
  }

  /** Insertion keeps the names strictly ascending. */
  lemma {:induction false} InsertSorted(s: seq<Item>, it: Item)
    requires SortedByName(s)
    ensures SortedByName(Insert(s, it).0)
    decreases |s|
  {
    if s == [] {
    } else if Less(it.name, s[0].name) {
      forall j | 0 <= j < |s| ensures Less(it.name, s[j].name) {
        if j > 0 {
          LessTransitive(it.name, s[0].name, s[j].name);
        }
      }
      SortedCons(it, s);
    } else if s[0].name == it.name {
    } else {
      LessTotal(it.name, s[0].name);
      SortedTail(s);
      var (t, ok) := Insert(s[1..], it);
      InsertSorted(s[1..], it);
      InsertContents(s[1..], it);
      forall k | 0 <= k < |t| ensures Less(s[0].name, t[k].name) {
        assert t[k] in multiset(t);
        if t[k] != it {
          assert t[k] in multiset(s[1..]);
          var j :| 0 <= j < |s| - 1 && s[1..][j] == t[k];
          assert s[j + 1] == t[k];
        }
      }
      SortedCons(s[0], t);
    }
  }

  /** Looking a name up after an insertion: the inserted name finds its
      first value, every other name finds what it found before. */
  lemma {:induction false} FindAfterInsert(s: seq<Item>, it: Item, name: string)
    requires SortedByName(s)
    ensures Find(Insert(s, it).0, name) ==
      if name == it.name && Find(s, name).None? then Some(it) else Find(s, name)
    decreases |s|
  {
    InsertContents(s, it);
    if s != [] && !Less(it.name, s[0].name) && s[0].name != it.name {
      SortedTail(s);
      FindAfterInsert(s[1..], it, name);
    }
  }

  function Names(s: seq<Item>): set<string> {
    set i | 0 <= i < |s| :: s[i].name
  }

  /** Every name occurs once, so the size is the number of distinct names. */
  lemma {:induction false} DistinctNames(s: seq<Item>)
    requires SortedByName(s)
    ensures |Names(s)| == |s|
    decreases |s|
  {
    if s != [] {
      var rest := s[1..];
      SortedTail(s);
      DistinctNames(rest);
      assert Names(s) == {s[0].name} + Names(rest) by {
        forall n | n in Names(s) ensures n in {s[0].name} + Names(rest) {
          var i :| 0 <= i < |s| && s[i].name == n;
          if i > 0 {
            assert rest[i - 1].name == n;
          }
        }
      }
      assert s[0].name !in Names(rest) by {
        forall i | 0 <= i < |rest| ensures rest[i].name != s[0].name {
          assert Less(s[0].name, s[i + 1].name);
          LessIrreflexive(s[0].name);
        }
      }
    }
  }

  class Properties {
    /** `m_container`, in iteration order. */
    var items: seq<Item>

    /** Iteration from `begin()` to `end()` yields ascending names. */
    ghost predicate Valid()
      reads this
    {
      SortedByName(items)
    }

    constructor ()
      ensures Valid() && items == []
    {
      items := [];
    }

    /** `count()`: the number of distinct names stored. */
    function Count(): (r: nat)
      requires Valid()
      reads this
      ensures r == |Names(items)|
    {
      DistinctNames(items);
      |items|
    }

    /** `exist(name)`. */
    function Exist(name: string): (r: bool)
      reads this
      ensures r <==> name in Names(items)
    {
      Find(items, name).Some?
    }

    /** `get(name)`: the stored value, or the empty string. */
    function Get(name: string): (r: string)
      reads this
      ensures name in Names(items) ==> exists i :: 0 <= i < |items| && items[i] == Item(name, r)
      ensures name !in Names(items) ==> r == ""
    {
      match Find(items, name)
      case Some(it) => it.value
      case None => ""
    }

    /** `add(name, value)`: refused, leaving the old value, when the name is
        already present; otherwise stored. */
    method Add(name: string, value: string) returns (r: bool)
      requires Valid()
      modifies this
      ensures Valid()
      ensures (items, r) == Insert(old(items), Item(name, value))
      ensures r <==> !old(Exist(name))
      ensures Get(name) == if r then value else old(Get(name))
      ensures forall n :: n != name ==> Get(n) == old(Get(n))
    {
      InsertSorted(items, Item(name, value));
      InsertContents(items, Item(name, value));
      ghost var before := items;
      var (t, ok) := Insert(items, Item(name, value));
      items, r := t, ok;
      forall n ensures Get(n) == if n == name && r then value else old(Get(n)) {
        FindAfterInsert(before, Item(name, value), n);
      }
    }

    /** `add(name, namelen, value, valuelen)`: the same with exactly the
        first `namelen` and `valuelen` characters. */
    method AddWithLengths(name: string, namelen: nat, value: string, valuelen: nat) returns (r: bool)
      requires Valid() && namelen <= |name| && valuelen <= |value|
      modifies this
      ensures Valid()
      ensures (items, r) == Insert(old(items), Item(name[..namelen], value[..valuelen]))
      ensures Get(name[..namelen]) == if r then value[..valuelen] else old(Get(name[..namelen]))
      ensures forall n :: n != name[..namelen] ==> Get(n) == old(Get(n))
    {
      r := Add(name[..namelen], value[..valuelen]);
    }
  }
}
