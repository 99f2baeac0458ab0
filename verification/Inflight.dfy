/** inflight: waiter lists kept in a map of slices.  Slices share backing arrays with what `take`
    returns and are spliced in place, so the frames below say which arrays each call may write. */
module Inflight {

  type Chan = nat

  /** A Go slice of channels: a backing array and a length. */
  datatype Slice = Slice(arr: array<Chan>, len: nat)

  predicate SliceOk(s: Slice) { s.len <= s.arr.Length }

  function Elems(s: Slice): seq<Chan>
    requires SliceOk(s)
    reads s.arr
  {
    s.arr[..s.len]
  }

  /** The slice holds the list, which is not empty. */
  ghost predicate Holds(s: Slice, list: seq<Chan>)
    reads s.arr
  {
    SliceOk(s) && 0 < s.len && Elems(s) == list
  }

  function IndexOf(s: seq<Chan>, ch: Chan): (i: nat)
    ensures i <= |s|
    ensures i < |s| ==> s[i] == ch
    ensures ch !in s[..i]
  {
    if s == [] || s[0] == ch then 0 else 1 + IndexOf(s[1..], ch)
  }

  function CutAt(s: seq<Chan>, i: nat): seq<Chan>
    requires i < |s|
  {
    s[..i] + s[i + 1..]
  }

  /** A list without the first occurrence of a channel. */
  function Without(s: seq<Chan>, ch: Chan): (t: seq<Chan>)
    ensures ch !in s ==> t == s
    ensures ch in s ==> |t| == |s| - 1
  {
    var i := IndexOf(s, ch);
    if i < |s| then CutAt(s, i) else s
  }

  type Lists<K> = map<K, seq<Chan>>

  function Waiters<K>(m: Lists<K>, key: K): seq<Chan> { if key in m then m[key] else [] }

  function Added<K>(m: Lists<K>, key: K, ch: Chan): Lists<K> { m[key := Waiters(m, key) + [ch]] }

  /** A map of lists never files an empty one. */
  function Put<K>(m: Lists<K>, key: K, list: seq<Chan>): Lists<K> {
    if list == [] then m - {key} else m[key := list]
  }

  function Removed<K>(m: Lists<K>, key: K, ch: Chan): Lists<K> {
    if key !in m || ch !in m[key] then m else Put(m, key, Without(m[key], ch))
  }

  class WaitMap<K(==)> {
    var m: map<K, Slice>
    ghost var lists: Lists<K>

    constructor ()
      ensures Valid() && lists == map[]
    {
      m := map[];
      lists := map[];
    }

    ghost function Arrays(): set<array<Chan>>
      reads this`m
    {
      set k | k in m :: m[k].arr
    }

    ghost predicate Apart()
      reads this`m
    {
      forall k, l :: k in m && l in m && k != l ==> m[k].arr != m[l].arr
    }

    /** No two keys share a backing array. */
    ghost predicate Valid()
      reads this, Arrays()
    {
      && m.Keys == lists.Keys
      && (forall k :: k in m ==> Holds(m[k], lists[k]))
      && Apart()
    }

    /** append(f[key], ch): in place while there is capacity, into a new array otherwise. */
    method Add(key: K, ch: Chan) returns (first: bool)
      requires Valid()
      modifies this, Arrays()
      ensures Valid() && fresh(Arrays() - old(Arrays()))
      ensures lists == Added(old(lists), key, ch)
      ensures first <==> key !in old(lists)
    {
      var s: Slice;
      if key in m {
        s := Append(m[key], lists[key], ch);
      } else {
        var one := new Chan[1];
        one[0] := ch;
        s := Slice(one, 1);
      }
      first := s.len == 1;
      File(key, s, Added(lists, key, ch)[key]);
    }

    method File(key: K, s: Slice, ghost list: seq<Chan>)
      requires m.Keys == lists.Keys && Apart() && Holds(s, list)
      requires forall k :: k in m && k != key ==> Holds(m[k], lists[k]) && m[k].arr != s.arr
      modifies this
      ensures Valid() && Arrays() <= old(Arrays()) + {s.arr} && lists == old(lists)[key := list]
    {
      m := m[key := s];
      lists := lists[key := list];
    }

    static method Append(s: Slice, ghost list: seq<Chan>, ch: Chan) returns (t: Slice)
      requires Holds(s, list)
      modifies s.arr
      ensures Holds(t, list + [ch]) && t.len == s.len + 1 && (t.arr == s.arr || fresh(t.arr))
    {
      if s.len < s.arr.Length {
        s.arr[s.len] := ch;
        t := Slice(s.arr, s.len + 1);
      } else {
        var grown := new Chan[2 * s.len];
        for i := 0 to s.len
          invariant Elems(s) == list && grown[..i] == list[..i]
        {
          grown[i] := s.arr[i];
          assert grown[i] == Elems(s)[i];
        }
        grown[s.len] := ch;
        t := Slice(grown, s.len + 1);
      }
      assert Elems(t) == list + [ch];
    }

    method Remove(key: K, ch: Chan)
      requires Valid()
      modifies this, Arrays()
      ensures Valid() && Arrays() <= old(Arrays())
      ensures lists == Removed(old(lists), key, ch)
    {
      if key !in m { return; }
      var s := m[key];
      ghost var elems := lists[key];
      for i := 0 to s.len
        invariant ch !in elems[..i]
      {
        if s.arr[i] == ch {
          FirstIs(elems, ch, i);
          Cut(key, i);
          return;
        }
      }
      assert elems[..s.len] == elems;
    }

    /** The splice itself: entry i leaves the list of a key, and an emptied list leaves the map. */
    method Cut(key: K, i: nat)
      requires Valid() && key in m && i < m[key].len
      modifies this, m[key].arr
      ensures Valid() && Arrays() <= old(Arrays())
      ensures lists == Put(old(lists), key, CutAt(old(lists)[key], i))
    {
      var s := m[key];
      ghost var list := CutAt(lists[key], i);
      Shift(s, lists[key], i);
      if s.len - 1 == 0 {
        m := m - {key};
      } else {
        m := m[key := Slice(s.arr, s.len - 1)];
      }
      lists := Put(lists, key, list);
    }

    /** append(waiters[:i], waiters[i+1:]...) shifts the tail down inside the backing array. */
    static method Shift(s: Slice, ghost list: seq<Chan>, i: nat)
      requires Holds(s, list) && i < s.len
      modifies s.arr
      ensures s.arr[..s.len - 1] == CutAt(list, i)
    {
      for j := i to s.len - 1
        invariant forall k :: 0 <= k < i ==> s.arr[k] == list[k]
        invariant forall k :: i <= k < j ==> s.arr[k] == list[k + 1]
        invariant forall k :: j <= k < s.len ==> s.arr[k] == list[k]
      {
        s.arr[j] := s.arr[j + 1];
      }
    }

    /** take: the whole list, and its backing array with it. */
    method Take(key: K) returns (waiters: Slice)
      requires Valid()
      modifies this
      ensures Valid() && Arrays() <= old(Arrays()) && lists == old(lists) - {key}
      ensures SliceOk(waiters) && Elems(waiters) == Waiters(old(lists), key)
      ensures waiters.arr !in Arrays() && (waiters.arr in old(Arrays()) || fresh(waiters.arr))
    {
      if key in m {
        waiters := m[key];
      } else {
        var empty := new Chan[0];
        waiters := Slice(empty, 0);
      }
      m := m - {key};
      lists := lists - {key};
    }

    /** closeAll: every list is taken, each once, and the map ends empty. */
    method CloseAll() returns (taken: Lists<K>)
      requires Valid()
      modifies this
      ensures Valid() && lists == map[] && taken == old(lists)
    {
      taken := map[];
      while m.Keys != {}
        invariant Valid() && taken + lists == old(lists) && taken.Keys !! lists.Keys
        decreases |m.Keys|
      {
        ghost var before := lists;
        var key, list := TakeAny();
        MovedOver(taken, before, key);
        taken := taken[key := list];
      }
      assert lists == map[];
    }

    method TakeAny() returns (key: K, list: seq<Chan>)
      requires Valid() && m.Keys != {}
      modifies this
      ensures Valid() && m.Keys < old(m.Keys)
      ensures key in old(lists) && list == old(lists)[key] && lists == old(lists) - {key}
    {
      key :| key in m;
      var waiters := Take(key);
      list := Elems(waiters);
    }

    /** A list once taken stays as it is while others join and leave: its array is out of reach. */
    method TakeThenChurn(key: K, calls: seq<(bool, K, Chan)>) returns (waiters: Slice)
      requires Valid()
      modifies this, Arrays()
      ensures Valid() && waiters.arr !in Arrays()
      ensures SliceOk(waiters) && Elems(waiters) == Waiters(old(lists), key)
    {
      waiters := Take(key);
      for i := 0 to |calls|
        invariant Valid() && SliceOk(waiters) && Elems(waiters) == Waiters(old(lists), key)
        invariant waiters.arr !in Arrays() && fresh(Arrays() - old(Arrays()))
      {
        if calls[i].0 {
          var first := Add(calls[i].1, calls[i].2);
        } else {
          Remove(calls[i].1, calls[i].2);
        }
      }
    }
  }

  lemma MovedOver<K>(taken: Lists<K>, rest: Lists<K>, key: K)
    requires key in rest && taken.Keys !! rest.Keys
    ensures taken[key := rest[key]] + (rest - {key}) == taken + rest
    ensures taken[key := rest[key]].Keys !! (rest - {key}).Keys
  {
  }

  lemma {:induction false} FirstIs(s: seq<Chan>, ch: Chan, i: nat)
    requires i < |s| && s[i] == ch && ch !in s[..i]
    ensures IndexOf(s, ch) == i
  {
    if i > 0 {
      assert s[0] in s[..i];
      assert s[1..][..i - 1] == s[..i][1..];
      FirstIs(s[1..], ch, i - 1);
    }
  }
}
