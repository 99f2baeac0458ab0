/** The life of a waiter channel: listed under a key, taken by a notifier, answered and closed.
    One value of Waits is what the inflight map, the notifiers and the channels hold together. */
module WaitLists {
  import opened Inflight

  type Key = string

  datatype Answer = Ok | Bad | Error

  /** What a notifier still has to deliver: the taken list and the value for all of it. */
  datatype Hand = Hand(key: Key, value: Answer, chans: seq<Chan>)

  datatype Place = Listed | InHand(hand: nat) | Answered | Withdrawn

  /** A channel made for one call: `sent` is every value ever sent to it. */
  datatype ChanState = ChanState(key: Key, place: Place, sent: seq<Answer>, closed: bool)

  datatype Waits = Waits(lists: Lists<Key>, hands: map<nat, Hand>, chans: map<Chan, ChanState>)

  const NONE := Waits(map[], map[], map[])

  // ---- the operations ----

  function Join(s: Waits, key: Key, ch: Chan): Waits
    requires ch !in s.chans
  {
    s.(lists := Added(s.lists, key, ch), chans := s.chans[ch := ChanState(key, Listed, [], false)])
  }

  /** A cancelled call removes its channel; when the list has been taken already this does nothing. */
  function Leave(s: Waits, ch: Chan): Waits
    requires ch in s.chans
  {
    var c := s.chans[ch];
    if ch in Waiters(s.lists, c.key)
    then s.(lists := Removed(s.lists, c.key, ch), chans := s.chans[ch := c.(place := Withdrawn)])
    else s
  }

  function Moved(chans: map<Chan, ChanState>, list: seq<Chan>, hand: nat): map<Chan, ChanState> {
    map ch | ch in chans :: if ch in list then chans[ch].(place := InHand(hand)) else chans[ch]
  }

  function Take(s: Waits, hand: nat, key: Key, value: Answer): Waits
    requires hand !in s.hands
  {
    var list := Waiters(s.lists, key);
    Waits(s.lists - {key}, s.hands[hand := Hand(key, value, list)], Moved(s.chans, list, hand))
  }

  function Told(c: ChanState, value: Answer): ChanState {
    c.(place := Answered, sent := c.sent + [value], closed := true)
  }

  /** One round of notifyWaiters: send, then close. */
  function Notify(s: Waits, hand: nat): Waits
    requires hand in s.hands && s.hands[hand].chans != [] && s.hands[hand].chans[0] in s.chans
  {
    var h := s.hands[hand];
    var ch := h.chans[0];
    s.(hands := s.hands[hand := h.(chans := h.chans[1..])], chans := s.chans[ch := Told(s.chans[ch], h.value)])
  }

  function Drop(s: Waits, hand: nat): Waits { s.(hands := s.hands - {hand}) }

  predicate IsListed(lists: Lists<Key>, ch: Chan) {
    exists k :: k in lists && ch in lists[k]
  }

  /** closeAll: everyone still listed is answered and closed, and the lists are gone. */
  function Flush(s: Waits, value: Answer): Waits {
    s.(lists := map[], chans := map ch | ch in s.chans ::
      if IsListed(s.lists, ch) then Told(s.chans[ch], value) else s.chans[ch])
  }

  // ---- what they keep ----

  predicate Distinct(s: seq<Chan>) {
    forall i, j :: 0 <= i < j < |s| ==> s[i] != s[j]
  }

  predicate ListOk(s: Waits, k: Key)
    requires k in s.lists
  {
    && s.lists[k] != [] && Distinct(s.lists[k])
    && forall ch :: ch in s.lists[k] ==> ch in s.chans && s.chans[ch].place == Listed && s.chans[ch].key == k
  }

  predicate HandOk(s: Waits, h: nat)
    requires h in s.hands
  {
    && Distinct(s.hands[h].chans)
    && forall ch :: ch in s.hands[h].chans ==>
      ch in s.chans && s.chans[ch].place == InHand(h) && s.chans[ch].key == s.hands[h].key
  }

  predicate ChanOk(s: Waits, ch: Chan)
    requires ch in s.chans
  {
    var c := s.chans[ch];
    && (c.place == Listed ==> c.key in s.lists && ch in s.lists[c.key])
    && (c.place.InHand? ==> c.place.hand in s.hands && ch in s.hands[c.place.hand].chans)
    && (c.closed <==> c.place == Answered)
    && |c.sent| == (if c.place == Answered then 1 else 0)
  }

  ghost predicate Inv(s: Waits) {
    && (forall k :: k in s.lists ==> ListOk(s, k))
    && (forall h :: h in s.hands ==> HandOk(s, h))
    && (forall ch :: ch in s.chans ==> ChanOk(s, ch))
  }

  lemma {:induction false} WithoutKeepsTheRest(s: seq<Chan>, ch: Chan)
    requires Distinct(s) && ch in s
    ensures Distinct(Without(s, ch)) && ch !in Without(s, ch)
    ensures forall x :: x != ch ==> (x in Without(s, ch) <==> x in s)
  {
    var i := IndexOf(s, ch);
    var t := Without(s, ch);
    assert forall j :: 0 <= j < |t| ==> t[j] == s[if j < i then j else j + 1];
    forall x | x in s && x != ch ensures x in t {
      var j :| 0 <= j < |s| && s[j] == x;
      assert t[if j < i then j else j - 1] == x;
    }
  }

  lemma JoinKeeps(s: Waits, key: Key, ch: Chan)
    requires Inv(s) && ch !in s.chans
    ensures Inv(Join(s, key, ch))
    ensures key in Join(s, key, ch).lists && Join(s, key, ch).lists.Keys == s.lists.Keys + {key}
  {
    var t := Join(s, key, ch);
    forall k | k in t.lists ensures ListOk(t, k) {
      if k in s.lists { assert ListOk(s, k); }
    }
    forall h | h in t.hands ensures HandOk(t, h) { assert HandOk(s, h); }
    forall c | c in t.chans ensures ChanOk(t, c) {
      if c != ch { assert ChanOk(s, c); }
    }
  }

  lemma LeaveKeeps(s: Waits, ch: Chan)
    requires Inv(s) && ch in s.chans
    ensures Inv(Leave(s, ch)) && Leave(s, ch).lists.Keys <= s.lists.Keys
  {
    var t, key := Leave(s, ch), s.chans[ch].key;
    if ch in Waiters(s.lists, key) {
      assert ListOk(s, key);
      WithoutKeepsTheRest(s.lists[key], ch);
      forall k | k in t.lists ensures ListOk(t, k) { assert ListOk(s, k); }
      forall h | h in t.hands ensures HandOk(t, h) { assert HandOk(s, h); }
      forall c | c in t.chans ensures ChanOk(t, c) {
        assert ChanOk(s, c);
        if c != ch && s.chans[c].key == key && s.chans[c].place == Listed {
          assert c in Without(s.lists[key], ch);
        }
      }
    }
  }

  lemma TakeKeeps(s: Waits, hand: nat, key: Key, value: Answer)
    requires Inv(s) && hand !in s.hands
    ensures Inv(Take(s, hand, key, value))
  {
    var t := Take(s, hand, key, value);
    if key in s.lists { assert ListOk(s, key); }
    forall k | k in t.lists ensures ListOk(t, k) { assert ListOk(s, k); }
    forall h | h in t.hands ensures HandOk(t, h) {
      if h != hand { assert HandOk(s, h); }
    }
    forall c | c in t.chans ensures ChanOk(t, c) { assert ChanOk(s, c); }
  }

  /** A send always finds an open channel with nothing sent: it neither panics nor blocks. */
  lemma NotifyKeeps(s: Waits, hand: nat)
    requires Inv(s) && hand in s.hands && s.hands[hand].chans != []
    ensures s.hands[hand].chans[0] in s.chans && Inv(Notify(s, hand))
    ensures s.chans[s.hands[hand].chans[0]].sent == [] && !s.chans[s.hands[hand].chans[0]].closed
  {
    assert HandOk(s, hand);
    var ch := s.hands[hand].chans[0];
    assert ChanOk(s, ch);
    var t := Notify(s, hand);
    forall k | k in t.lists ensures ListOk(t, k) { assert ListOk(s, k); }
    forall h | h in t.hands ensures HandOk(t, h) {
      assert HandOk(s, h);
      if h == hand {
        assert forall i :: 0 <= i < |t.hands[h].chans| ==> t.hands[h].chans[i] == s.hands[h].chans[i + 1];
      }
    }
    forall c | c in t.chans ensures ChanOk(t, c) {
      assert ChanOk(s, c);
      if c != ch && s.chans[c].place == InHand(hand) {
        var i :| 0 <= i < |s.hands[hand].chans| && s.hands[hand].chans[i] == c;
        assert t.hands[hand].chans[i - 1] == c;
      }
    }
  }

  lemma DropKeeps(s: Waits, hand: nat)
    requires Inv(s) && hand in s.hands && s.hands[hand].chans == []
    ensures Inv(Drop(s, hand))
  {
    var t := Drop(s, hand);
    forall k | k in t.lists ensures ListOk(t, k) { assert ListOk(s, k); }
    forall h | h in t.hands ensures HandOk(t, h) { assert HandOk(s, h); }
    forall c | c in t.chans ensures ChanOk(t, c) { assert ChanOk(s, c); }
  }

  lemma FlushKeeps(s: Waits, value: Answer)
    requires Inv(s)
    ensures Inv(Flush(s, value))
    ensures forall ch :: ch in s.chans && s.chans[ch].place == Listed ==>
      Flush(s, value).chans[ch].sent == [value] && Flush(s, value).chans[ch].closed
  {
    var t := Flush(s, value);
    forall h | h in t.hands ensures HandOk(t, h) {
      assert HandOk(s, h);
      forall ch | ch in s.hands[h].chans ensures !IsListed(s.lists, ch) {
        NotListed(s, ch);
      }
    }
    forall c | c in t.chans ensures ChanOk(t, c) {
      assert ChanOk(s, c);
      NotListed(s, c);
    }
    forall c | c in s.chans && s.chans[c].place == Listed ensures t.chans[c].sent == [value] {
      assert ChanOk(s, c);
      NotListed(s, c);
    }
  }

  lemma NotListed(s: Waits, ch: Chan)
    requires Inv(s) && ch in s.chans
    ensures IsListed(s.lists, ch) <==> s.chans[ch].place == Listed
  {
    assert ChanOk(s, ch);
    forall k | k in s.lists && ch in s.lists[k] ensures s.chans[ch].place == Listed { assert ListOk(s, k); }
  }

  // ---- what a reader of the code expects ----

  /** Every channel is in exactly one stage: waiting in its key's list, once; in one notifier's hands,
      once; told exactly one value and closed; or withdrawn by its own call, with nothing sent. */
  lemma OneResultEach(s: Waits, ch: Chan)
    requires Inv(s) && ch in s.chans
    ensures |s.chans[ch].sent| <= 1 && (s.chans[ch].closed <==> |s.chans[ch].sent| == 1)
    ensures s.chans[ch].sent == [] && s.chans[ch].place != Withdrawn ==>
      (ch in Waiters(s.lists, s.chans[ch].key)) != (exists h :: h in s.hands && ch in s.hands[h].chans)
    ensures forall k :: k in s.lists && ch in s.lists[k] ==> k == s.chans[ch].key
    ensures forall g, h :: g in s.hands && h in s.hands && ch in s.hands[g].chans && ch in s.hands[h].chans ==> g == h
  {
    assert ChanOk(s, ch);
    forall k | k in s.lists && ch in s.lists[k] ensures k == s.chans[ch].key && s.chans[ch].place == Listed { assert ListOk(s, k); }
    forall h | h in s.hands && ch in s.hands[h].chans ensures s.chans[ch].place == InHand(h) { assert HandOk(s, h); }
  }

  function NotifyAll(s: Waits, hand: nat): Waits
    requires Inv(s) && hand in s.hands
    decreases |s.hands[hand].chans|
  {
    if s.hands[hand].chans == [] then s
    else
      NotifyKeeps(s, hand);
      NotifyAll(Notify(s, hand), hand)
  }

  /** notifyWaiters tells the whole taken list, each channel the one value, and touches no other. */
  lemma {:induction false} NotifyAllTells(s: Waits, hand: nat)
    requires Inv(s) && hand in s.hands
    ensures Inv(NotifyAll(s, hand)) && NotifyAll(s, hand).chans.Keys == s.chans.Keys
    ensures forall ch :: ch in s.hands[hand].chans ==> NotifyAll(s, hand).chans[ch].sent == [s.hands[hand].value]
    ensures forall ch :: ch in s.chans && ch !in s.hands[hand].chans ==> NotifyAll(s, hand).chans[ch] == s.chans[ch]
    decreases |s.hands[hand].chans|
  {
    if s.hands[hand].chans != [] {
      NotifyKeeps(s, hand);
      var t := Notify(s, hand);
      NotifyAllTells(t, hand);
      var list := s.hands[hand].chans;
      assert HandOk(s, hand);
      assert list == [list[0]] + list[1..];
    }
  }

  function TellsTo(c: ChanState, key: Key, value: Answer): seq<Answer> {
    if c.place == Listed && c.key == key then [value] else c.sent
  }

  /** Finishing a key tells its result to every call that waits for it and has not withdrawn. */
  lemma FinishTellsEveryone(s: Waits, hand: nat, key: Key, value: Answer)
    requires Inv(s) && hand !in s.hands
    ensures Inv(Take(s, hand, key, value))
    ensures NotifyAll(Take(s, hand, key, value), hand).chans.Keys == s.chans.Keys
    ensures forall ch :: ch in s.chans ==>
      NotifyAll(Take(s, hand, key, value), hand).chans[ch].sent == TellsTo(s.chans[ch], key, value)
  {
    TakeKeeps(s, hand, key, value);
    NotifyAllTells(Take(s, hand, key, value), hand);
    forall ch | ch in s.chans ensures ch in Waiters(s.lists, key) <==> s.chans[ch].place == Listed && s.chans[ch].key == key {
      assert ChanOk(s, ch);
      if key in s.lists { assert ListOk(s, key); }
    }
  }
}
