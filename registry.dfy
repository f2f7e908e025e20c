/** The manager's listener registry: for each message type, the callbacks to run, in
    registration order. Callbacks are opaque handles compared by identity, as
    `Array.prototype.indexOf` compares functions. */
module Registry {

  type Callback = nat

  type Listeners = map<string, seq<Callback>>

  /** The callbacks registered for `t`; none when the type has no entry. */
  function ListenersFor(reg: Listeners, t: string): (callbacks: seq<Callback>) {
    if t in reg then reg[t] else []
  }

  /** `indexOf`: the position of the first occurrence of `cb`, or -1. */
  function IndexOf(s: seq<Callback>, cb: Callback): (i: int)
    ensures -1 <= i < |s|
    ensures i == -1 <==> cb !in s
    ensures 0 <= i ==> s[i] == cb && cb !in s[..i]
  {
    if s == [] then -1
    else if s[0] == cb then 0
    else
      var j := IndexOf(s[1..], cb);
      assert s[1..][..if j < 0 then 0 else j] == s[1..if j < 0 then 1 else j + 1];
      if j == -1 then -1 else j + 1
  }

  /** `splice(indexOf(cb), 1)` behind the `index > -1` guard: drops the first
      occurrence of `cb` and keeps the others in order. */
  function RemoveFirst(s: seq<Callback>, cb: Callback): (r: seq<Callback>)
    ensures cb !in s ==> r == s
    ensures cb in s ==> |r| == |s| - 1 && multiset(r) == multiset(s) - multiset{cb}
    ensures cb in s ==> exists i :: 0 <= i < |s| && s[i] == cb && cb !in s[..i] && r == s[..i] + s[i + 1..]
  {
    var i := IndexOf(s, cb);
    if i > -1 then
      assert s == s[..i] + [s[i]] + s[i + 1..];
      s[..i] + s[i + 1..]
    else s
  }

  /** `onMessage(t, cb)`: an entry for `t` is created if missing and `cb` goes last. */
  function Subscribe(reg: Listeners, t: string, cb: Callback): (r: Listeners)
    ensures r.Keys == reg.Keys + {t}
    ensures r[t] == ListenersFor(reg, t) + [cb]
    ensures forall k :: k in reg && k != t ==> r[k] == reg[k]
  {
    reg[t := ListenersFor(reg, t) + [cb]]
  }

  /** `offMessage(t, cb)`: the first `cb` under `t` is removed; an absent type or
      callback leaves the registry as it was. */
  function Unsubscribe(reg: Listeners, t: string, cb: Callback): (r: Listeners)
    ensures r.Keys == reg.Keys
    ensures t in reg ==> r[t] == RemoveFirst(reg[t], cb)
    ensures forall k :: k in reg && k != t ==> r[k] == reg[k]
    ensures cb !in ListenersFor(reg, t) ==> r == reg
  {
    if t in reg then
      var kept := RemoveFirst(reg[t], cb);
      assert cb !in reg[t] ==> kept == reg[t];
      reg[t := kept]
    else reg
  }

  /** Removing a callback appended to a list that did not hold it gives the list back. */
  lemma RemoveFirstUndoesAppend(s: seq<Callback>, cb: Callback)
    requires cb !in s
    ensures RemoveFirst(s + [cb], cb) == s
  {
    var i := IndexOf(s + [cb], cb);
    assert (s + [cb])[..|s|] == s;
    assert i == |s|;
    assert (s + [cb])[i + 1..] == [];
  }

  /** Unsubscribing a callback just subscribed, and not registered before, restores
      every list; only the (possibly empty) entry for its type remains. */
  lemma UnsubscribeUndoesSubscribe(reg: Listeners, t: string, cb: Callback)
    requires cb !in ListenersFor(reg, t)
    ensures Unsubscribe(Subscribe(reg, t, cb), t, cb) == reg[t := ListenersFor(reg, t)]
  {
    var s := ListenersFor(reg, t);
    RemoveFirstUndoesAppend(s, cb);
    var added := reg[t := s + [cb]];
    assert Unsubscribe(added, t, cb) == added[t := s];
  }

  /** Registering a callback twice and removing it once leaves one registration:
      removal takes the first occurrence only. */
  lemma UnsubscribeRemovesOne(reg: Listeners, t: string, cb: Callback)
    ensures multiset(ListenersFor(Unsubscribe(Subscribe(Subscribe(reg, t, cb), t, cb), t, cb), t))[cb]
            == multiset(ListenersFor(reg, t))[cb] + 1
  {
    var s := ListenersFor(reg, t);
    var twice := s + [cb] + [cb];
    assert ListenersFor(Subscribe(Subscribe(reg, t, cb), t, cb), t) == twice;
    assert cb in twice;
  }
}
