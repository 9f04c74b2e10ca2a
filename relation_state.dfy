/** The in-memory relation state of CRelationView as a value, and the
    effect of each of its operations on that value. CRelationView in
    the RelationView module keeps these three maps as fields and is proved
    to change them exactly as these functions say. */
module RelationState {
  import opened Basics
  import opened Blob
  import opened Transaction
  import opened Actions

  /** One accepted action as the per-block record stores it:
      (txid, (from, to)), with the null key id as `to` for an unbind. */
  datatype Relation = Relation(txid: uint256, from: KeyID, to: KeyID)

  /** One identity's actions by height: one target per height. */
  type History = map<int, KeyID>

  /** relationTip (plot to plot, the legacy view), relationKeyIDTip (key to
      key) and relationsHistoryMap (key to history). */
  datatype Mem = Mem(tip: map<PlotID, PlotID>, keyTip: map<KeyID, KeyID>, history: map<KeyID, History>)

  const EmptyMem: Mem := Mem(map[], map[], map[])

  function HistoryOf(m: Mem, x: KeyID): History
  {
    if x in m.history then m.history[x] else map[]
  }

  // ---------------------------------------------------------------- addRelationHistory

  /** addRelationHistory: the entry at `height` becomes `to`; every other
      entry and every other identity's history is left as it was. */
  function AddHistory(m: Mem, height: int, from: KeyID, to: KeyID): (r: Mem)
    ensures r.tip == m.tip && r.keyTip == m.keyTip
    ensures from in r.history && height in r.history[from] && r.history[from][height] == to
    ensures forall h :: h != height ==>
      (h in HistoryOf(r, from) <==> h in HistoryOf(m, from))
      && (h in HistoryOf(m, from) ==> HistoryOf(r, from)[h] == HistoryOf(m, from)[h])
    ensures forall x :: x != from ==> (x in r.history <==> x in m.history) && HistoryOf(r, x) == HistoryOf(m, x)
  {
    m.(history := m.history[from := HistoryOf(m, from)[height := to]])
  }

  // ---------------------------------------------------------------- AcceptAction

  /** The in-memory effect of AcceptAction. A bind sets the key tip of `from`
      to `to` (and, before POC21, the legacy tip of from's plot to to's plot);
      an unbind erases them; both record the target (null for an unbind) at
      `height`. Nil changes nothing. */
  function Accept(c: Crypto, m: Mem, height: int, action: Action, poc21: bool): (r: Mem)
    ensures action.Bind? ==>
      && r.keyTip == m.keyTip[action.from := action.to]
      && r.tip == (if poc21 then m.tip else m.tip[c.plotIdOf(action.from) := c.plotIdOf(action.to)])
      && r.history == AddHistory(m, height, action.from, action.to).history
    ensures action.Unbind? ==>
      && r.keyTip == m.keyTip - {action.from}
      && r.tip == (if poc21 then m.tip else m.tip - {c.plotIdOf(action.from)})
      && r.history == AddHistory(m, height, action.from, NullId).history
    ensures action.Nil? ==> r == m
  {
    match action
    case Nil => m
    case Bind(f, t) =>
      var m1 := if poc21 then m else m.(tip := m.tip[c.plotIdOf(f) := c.plotIdOf(t)]);
      AddHistory(m1.(keyTip := m1.keyTip[f := t]), height, f, t)
    case Unbind(f) =>
      var m1 := if poc21 then m else m.(tip := m.tip - {c.plotIdOf(f)});
      AddHistory(m1.(keyTip := m1.keyTip - {f}), height, f, NullId)
  }

  /** The entry AcceptAction appends to `relations`: exactly one for a bind or
      an unbind, none for Nil. */
  function RelationsFor(txid: uint256, action: Action): (rs: seq<Relation>)
    ensures action.Nil? <==> rs == []
    ensures action.Bind? ==> rs == [Relation(txid, action.from, action.to)]
    ensures action.Unbind? ==> rs == [Relation(txid, action.from, NullId)]
  {
    match action
    case Nil => []
    case Bind(f, t) => [Relation(txid, f, t)]
    case Unbind(f) => [Relation(txid, f, NullId)]
  }

  /** The (plot id, key id) records AcceptAction batches: from's, then to's,
      for a bind before POC21; nothing otherwise. The later write wins when
      the two plot ids coincide. */
  function PlotBatch(c: Crypto, action: Action, poc21: bool): (b: map<PlotID, KeyID>)
    ensures !(action.Bind? && !poc21) ==> b == map[]
    ensures action.Bind? && !poc21 ==>
      && b.Keys == {c.plotIdOf(action.from), c.plotIdOf(action.to)}
      && b[c.plotIdOf(action.to)] == action.to
      && (c.plotIdOf(action.from) != c.plotIdOf(action.to) ==> b[c.plotIdOf(action.from)] == action.from)
  {
    if action.Bind? && !poc21 then
      map[c.plotIdOf(action.from) := action.from][c.plotIdOf(action.to) := action.to]
    else map[]
  }

  /** Successive AcceptAction calls at one height. */
  function AcceptAll(c: Crypto, m: Mem, height: int, actions: seq<Action>, poc21: bool): Mem
  {
    if actions == [] then m
    else Accept(c, AcceptAll(c, m, height, actions[..|actions| - 1], poc21), height, actions[|actions| - 1], poc21)
  }

  // ---------------------------------------------------------------- ConnectBlock

  /** The state of ConnectBlock's loop: the memory, the `relations` vector,
      the batches written, the actions accepted, and whether a decoding
      failure has thrown out of the loop. */
  datatype Outcome = Outcome(mem: Mem, relations: seq<Relation>, batches: seq<map<PlotID, KeyID>>,
                             accepted: seq<Action>, raised: bool)

  /** Every transaction of a block has an input (ConnectBlock reads vin[0]). */
  predicate HasInputs(txs: seq<Transaction>)
  {
    forall i :: 0 <= i < |txs| ==> |txs[i].vin| > 0
  }

  /** One iteration: decode; skip Nil; accept what verifies against the first
      input's outpoint; skip (log) what does not. */
  function ConnectStep(c: Crypto, ctx: ChainContext, o: Outcome, height: int, tx: Transaction, poc21: bool): Outcome
    requires |tx.vin| > 0
  {
    match ExtractedAction(ctx, tx, [])
    case Err(_) => o.(raised := true)
    case Ok((action, sig)) =>
      if action.Nil? || !VerifyAction(c, tx.vin[0].prevout, action, sig) then o
      else o.(mem := Accept(c, o.mem, height, action, poc21),
              relations := o.relations + RelationsFor(ctx.txHash(tx), action),
              batches := o.batches + [PlotBatch(c, action, poc21)],
              accepted := o.accepted + [action])
  }

  /** ConnectBlock's loop over the transactions, stopped by a throw. */
  function ConnectTxs(c: Crypto, ctx: ChainContext, m: Mem, height: int, txs: seq<Transaction>, poc21: bool): Outcome
    requires HasInputs(txs)
  {
    if txs == [] then Outcome(m, [], [], [], false)
    else
      var o := ConnectTxs(c, ctx, m, height, txs[..|txs| - 1], poc21);
      if o.raised then o else ConnectStep(c, ctx, o, height, txs[|txs| - 1], poc21)
  }

  // ---------------------------------------------------------------- removeRelationHistory

  /** The entries of from's history below `height`. */
  function Truncated(m: Mem, from: KeyID, height: int): (kept: History)
    ensures forall h :: h in kept <==> h in HistoryOf(m, from) && h < height
    ensures forall h :: h in kept ==> kept[h] == HistoryOf(m, from)[h]
  {
    map h | h in HistoryOf(m, from) && h < height :: HistoryOf(m, from)[h]
  }

  /** The target of a history's greatest height, or the null id when empty. */
  ghost function LatestOf(hs: History): KeyID
  {
    if hs == map[] then NullId else hs[MaxKey(hs)]
  }

  /** removeRelationHistory: from's entries at `height` and above are dropped.
      With none left, `from` leaves the history and both tips (the legacy
      tip only before POC21). Otherwise its tips point at the target of the
      greatest remaining height, which is the null id after an unbind. (The
      search for an earlier entry always succeeds: every kept entry is
      below `height`.) */
  ghost function RemoveHistory(c: Crypto, m: Mem, height: int, from: KeyID, poc21: bool): (r: Mem)
    ensures forall h :: h in HistoryOf(r, from) ==> h < height
    ensures HistoryOf(r, from) == Truncated(m, from, height)
    ensures from in r.history <==> Truncated(m, from, height) != map[]
    ensures Truncated(m, from, height) == map[] ==>
      from !in r.keyTip && r.tip == (if poc21 then m.tip else m.tip - {c.plotIdOf(from)})
    ensures Truncated(m, from, height) != map[] ==>
      var prev := LatestOf(Truncated(m, from, height));
      && from in r.keyTip && r.keyTip[from] == prev
      && r.tip == (if poc21 then m.tip else m.tip[c.plotIdOf(from) := c.plotIdOf(prev)])
    ensures forall x :: x != from ==>
      && (x in r.history <==> x in m.history) && HistoryOf(r, x) == HistoryOf(m, x)
      && (x in r.keyTip <==> x in m.keyTip) && (x in m.keyTip ==> r.keyTip[x] == m.keyTip[x])
  {
    var kept := Truncated(m, from, height);
    if kept == map[] then
      Mem(if poc21 then m.tip else m.tip - {c.plotIdOf(from)}, m.keyTip - {from}, m.history - {from})
    else
      var prev := kept[MaxKey(kept)];
      Mem(if poc21 then m.tip else m.tip[c.plotIdOf(from) := c.plotIdOf(prev)],
          m.keyTip[from := prev], m.history[from := kept])
  }

  // ---------------------------------------------------------------- DisconnectBlock

  /** The identities with a history entry at `height`. */
  function AtHeight(m: Mem, height: int): set<KeyID>
  {
    set x | x in m.history && height in m.history[x]
  }

  /** removeRelationHistory for each identity of `keys`, in ascending key-id
      order (the order of relationsHistoryMap). */
  ghost function RewindAll(c: Crypto, m: Mem, keys: set<KeyID>, height: int, poc21: bool): Mem
    decreases |keys|
  {
    if keys == {} then m
    else
      var k := Least(keys);
      RewindAll(c, RemoveHistory(c, m, height, k, poc21), keys - {k}, height, poc21)
  }

  /** The in-memory effect of DisconnectBlock. */
  ghost function Disconnect(c: Crypto, m: Mem, height: int, poc21: bool): Mem
  {
    RewindAll(c, m, AtHeight(m, height), height, poc21)
  }

  // ---------------------------------------------------------------- LoadRelationFromDisk

  /** Replaying one stored relation: a non-null target is a bind, the null
      target an unbind. */
  function LoadEntry(c: Crypto, m: Mem, height: int, r: Relation, poc21: bool): (m': Mem)
    ensures r.to != NullId ==> m'.keyTip == m.keyTip[r.from := r.to]
    ensures r.to == NullId ==> m'.keyTip == m.keyTip - {r.from}
    ensures m'.history == AddHistory(m, height, r.from, r.to).history
  {
    if r.to != NullId then
      var m1 := if poc21 then m else m.(tip := m.tip[c.plotIdOf(r.from) := c.plotIdOf(r.to)]);
      AddHistory(m1.(keyTip := m1.keyTip[r.from := r.to]), height, r.from, r.to)
    else
      var m1 := if poc21 then m else m.(tip := m.tip - {c.plotIdOf(r.from)});
      AddHistory(m1.(keyTip := m1.keyTip - {r.from}), height, r.from, NullId)
  }

  /** Replaying a stored batch in order. */
  function LoadBatch(c: Crypto, m: Mem, height: int, rs: seq<Relation>, poc21: bool): Mem
  {
    if rs == [] then m
    else LoadEntry(c, LoadBatch(c, m, height, rs[..|rs| - 1], poc21), height, rs[|rs| - 1], poc21)
  }

  // ---------------------------------------------------------------- queries

  /** To() after POC21: the key tip of `from`, or the null id. */
  function ToKey(m: Mem, from: KeyID): (k: KeyID)
    ensures from in m.keyTip ==> k == m.keyTip[from]
    ensures from !in m.keyTip ==> k == NullId
  {
    if from in m.keyTip then m.keyTip[from] else NullId
  }

  /** To() before POC21: the plot the legacy tip maps `plotid` to, looked up
      in the stored (plot id, key id) records; the null id when either is
      missing (a failed Read leaves the default value). */
  function LegacyTo(m: Mem, plotKeys: map<PlotID, KeyID>, plotid: PlotID): (k: KeyID)
    ensures plotid in m.tip && m.tip[plotid] in plotKeys ==> k == plotKeys[m.tip[plotid]]
    ensures !(plotid in m.tip && m.tip[plotid] in plotKeys) ==> k == NullId
  {
    if plotid in m.tip && m.tip[plotid] in plotKeys then plotKeys[m.tip[plotid]] else NullId
  }

  // ---------------------------------------------------------------- invariants

  /** Every identity's key tip is the target of its latest history entry:
      the null id (or no tip) when that entry is an unbind or there is none. */
  ghost predicate Agrees(m: Mem)
  {
    forall x :: ToKey(m, x) == LatestOf(HistoryOf(m, x))
  }

  /** No identity keeps an empty history. */
  predicate NoEmptyHistory(m: Mem)
  {
    forall x :: x in m.history ==> m.history[x] != map[]
  }

  /** Every recorded height is below `height`. */
  predicate AllBelow(m: Mem, height: int)
  {
    forall x, h :: x in m.history && h in m.history[x] ==> h < height
  }

  /** Every recorded height is at most `height`. */
  predicate AllAtMost(m: Mem, height: int)
  {
    forall x, h :: x in m.history && h in m.history[x] ==> h <= height
  }

  /** The invariant between blocks, with `next` the height of the next block
      to connect: every key tip agrees with the latest history entry, no
      history is empty, and every recorded height is below `next`. */
  ghost predicate Consistent(m: Mem, next: int)
  {
    Agrees(m) && NoEmptyHistory(m) && AllBelow(m, next)
  }
}
