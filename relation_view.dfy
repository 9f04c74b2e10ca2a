/** CRelationView: the three in-memory maps as fields, the two kinds of
    database record as fields, and each member function as a method proved
    to change them as the RelationState functions say. A database write or
    erase may fail; its outcome is a nondeterministic choice. */
module RelationView {
  import opened Basics
  import opened Blob
  import opened Transaction
  import opened Actions
  import opened RelationState
  import opened RelationProperties

  /** The DB_RELATIONID records after a sequence of batches, each of which
      was written or lost as `oks` says. */
  function ApplyBatches(plotKeys: map<PlotID, KeyID>, batches: seq<map<PlotID, KeyID>>, oks: seq<bool>): map<PlotID, KeyID>
    requires |oks| == |batches|
  {
    if batches == [] then plotKeys
    else
      var p := ApplyBatches(plotKeys, batches[..|batches| - 1], oks[..|oks| - 1]);
      if oks[|oks| - 1] then p + batches[|batches| - 1] else p
  }

  lemma ApplyBatchesSnoc(plotKeys: map<PlotID, KeyID>, batches: seq<map<PlotID, KeyID>>, oks: seq<bool>,
                         b: map<PlotID, KeyID>, ok: bool)
    requires |oks| == |batches|
    ensures ApplyBatches(plotKeys, batches + [b], oks + [ok])
         == if ok then ApplyBatches(plotKeys, batches, oks) + b else ApplyBatches(plotKeys, batches, oks)
  {
    assert (batches + [b])[..|batches|] == batches && (oks + [ok])[..|oks|] == oks;
  }

  /** The first key id of a set in std::map order, found by a scan. */
  method LeastKey(s: set<KeyID>) returns (k: KeyID)
    requires s != {}
    ensures k == Least(s)
  {
    k :| k in s;
    var rest := s - {k};
    while rest != {}
      invariant rest <= s && k in s && k !in rest
      invariant forall y :: y in s && y !in rest && y != k ==> BlobLess(k, y)
      decreases |rest|
    {
      var y :| y in rest;
      CompareAntisymmetric(k, y);
      CompareZeroIffEqual(k, y);
      if BlobLess(y, k) {
        forall z | z in s && z !in rest && z != y && z != k
          ensures BlobLess(y, z)
        {
          CompareTransitive(y, k, z);
        }
        k := y;
      }
      rest := rest - {y};
    }
    LeastUnique(s, k, Least(s));
  }

  lemma LeastOfSubset(s: set<KeyID>, t: set<KeyID>, k: KeyID)
    requires s != {} && k == Least(s) && t <= s && k in t
    ensures Least(t) == k
  {
    LeastUnique(t, k, Least(t));
  }

  /** The greatest height of a non-empty history, found by a scan. */
  method GreatestHeight(hs: History) returns (k: int)
    requires hs != map[]
    ensures k == MaxKey(hs)
  {
    assert |hs.Items| == |hs|;
    var first :| first in hs.Items;
    k := first.0;
    var rest := hs - {k};
    while rest != map[]
      invariant rest.Keys <= hs.Keys && k in hs
      invariant forall h :: h in hs && h !in rest ==> h <= k
      decreases |rest|
    {
      assert |rest.Items| == |rest|;
      var entry :| entry in rest.Items;
      if entry.0 > k {
        k := entry.0;
      }
      rest := rest - {entry.0};
    }
  }

  /** One turn of DisconnectBlock's loop in terms of RewindAll: the least
      pending identity is rewound now when it has an entry at the height,
      and skipped otherwise. */
  lemma RewindStep(c: Crypto, m: Mem, target: set<KeyID>, pending: set<KeyID>, from: KeyID, height: int, poc21: bool)
    requires pending != {} && from == Least(pending)
    ensures from in target ==>
      RewindAll(c, m, target * pending, height, poc21)
        == RewindAll(c, RemoveHistory(c, m, height, from, poc21), target * (pending - {from}), height, poc21)
    ensures from !in target ==> target * pending == target * (pending - {from})
  {
    if from in target {
      LeastOfSubset(pending, target * pending, from);
      assert target * pending - {from} == target * (pending - {from});
    }
  }

  /** ListRelations' loop invariant: `v` lists, in ascending order, the
      entries of `tip` whose keys are no longer pending, and every one of
      them is below every pending key. */
  ghost predicate Listing(tip: map<KeyID, KeyID>, v: seq<(KeyID, KeyID)>, pending: set<KeyID>)
  {
    && pending <= tip.Keys
    && |v| + |pending| == |tip|
    && (forall i :: 0 <= i < |v| ==> v[i].0 in tip && v[i].0 !in pending && v[i].1 == tip[v[i].0])
    && (forall x :: x in tip && x !in pending ==> exists i :: 0 <= i < |v| && v[i].0 == x)
    && (forall i, j :: 0 <= i < j < |v| ==> BlobLess(v[i].0, v[j].0))
    && (forall i, y :: 0 <= i < |v| && y in pending ==> BlobLess(v[i].0, y))
  }

  lemma ListingStep(tip: map<KeyID, KeyID>, v: seq<(KeyID, KeyID)>, pending: set<KeyID>, k: KeyID)
    requires Listing(tip, v, pending) && pending != {} && k == Least(pending)
    ensures Listing(tip, v + [(k, tip[k])], pending - {k})
  {
    var v' := v + [(k, tip[k])];
    var p' := pending - {k};
    assert |p'| == |pending| - 1;
    assert forall i :: 0 <= i < |v| ==> v'[i] == v[i];
    ListingCovers(tip, v, pending, k);
    ListingOrdered(v, pending, k, tip[k]);
  }

  lemma ListingCovers(tip: map<KeyID, KeyID>, v: seq<(KeyID, KeyID)>, pending: set<KeyID>, k: KeyID)
    requires k in tip
    requires forall x :: x in tip && x !in pending ==> exists i :: 0 <= i < |v| && v[i].0 == x
    ensures forall x :: x in tip && x !in pending - {k} ==>
      exists i :: 0 <= i < |v| + 1 && (v + [(k, tip[k])])[i].0 == x
  {
    var v' := v + [(k, tip[k])];
    forall x | x in tip && x !in pending - {k}
      ensures exists i :: 0 <= i < |v'| && v'[i].0 == x
    {
      if x == k {
        assert v'[|v'| - 1].0 == x;
      } else {
        var i :| 0 <= i < |v| && v[i].0 == x;
        assert v'[i].0 == x;
      }
    }
  }

  lemma ListingOrdered(v: seq<(KeyID, KeyID)>, pending: set<KeyID>, k: KeyID, to: KeyID)
    requires pending != {} && k == Least(pending)
    requires forall i, j :: 0 <= i < j < |v| ==> BlobLess(v[i].0, v[j].0)
    requires forall i, y :: 0 <= i < |v| && y in pending ==> BlobLess(v[i].0, y)
    ensures forall i, j :: 0 <= i < j < |v| + 1 ==> BlobLess((v + [(k, to)])[i].0, (v + [(k, to)])[j].0)
    ensures forall i, y :: 0 <= i < |v| + 1 && y in pending - {k} ==> BlobLess((v + [(k, to)])[i].0, y)
  {
    var v' := v + [(k, to)];
    assert forall i :: 0 <= i < |v| ==> v'[i] == v[i];
    assert v'[|v|].0 == k;
  }

  /** The erase loop of removeRelationHistory: the entries at `height` and
      above go, the others stay. */
  method EraseFrom(full: History, height: int) returns (list: History)
    ensures forall h :: h in list <==> h in full && h < height
    ensures forall h :: h in list ==> list[h] == full[h]
  {
    list := full;
    var rest := full;
    while rest != map[]
      invariant rest.Keys <= full.Keys
      invariant forall h :: h in list <==> h in full && (h in rest || h < height)
      invariant forall h :: h in list ==> list[h] == full[h]
      decreases |rest|
    {
      assert |rest.Items| == |rest|;
      var entry :| entry in rest.Items;
      if entry.0 >= height {
        list := list - {entry.0};
      }
      rest := rest - {entry.0};
    }
  }

  class RelationView {
    const crypto: Crypto
    var relationTip: map<PlotID, PlotID>
    var relationKeyIDTip: map<KeyID, KeyID>
    var relationsHistoryMap: map<KeyID, History>
    /** The DB_RELATIONID ('P') records: plot id to key id. */
    var plotKeys: map<PlotID, KeyID>
    /** The DB_ACTIVE_ACTION_KEY ('K') records: height to that block's relations. */
    var actionRecords: map<int, seq<Relation>>

    /** The in-memory maps as one value. */
    function State(): Mem
      reads this
    {
      Mem(relationTip, relationKeyIDTip, relationsHistoryMap)
    }

    /** Opening the view over an existing database: the maps start empty. */
    constructor (c: Crypto, plotKeys0: map<PlotID, KeyID>, records0: map<int, seq<Relation>>)
      ensures crypto == c && State() == EmptyMem
      ensures plotKeys == plotKeys0 && actionRecords == records0
    {
      crypto := c;
      relationTip := map[];
      relationKeyIDTip := map[];
      relationsHistoryMap := map[];
      plotKeys := plotKeys0;
      actionRecords := records0;
    }

    /** To: after POC21 the key tip of `from`; before, the stored key id of
        the plot the legacy tip maps `plotid` to. Either way the null id when
        nothing is found. */
    function To(from: KeyID, plotid: PlotID, poc21: bool): (k: KeyID)
      reads this
      ensures poc21 ==> k == ToKey(State(), from)
      ensures !poc21 ==> k == LegacyTo(State(), plotKeys, plotid)
    {
      if poc21 then
        if from in relationKeyIDTip then relationKeyIDTip[from] else NullId
      else if plotid in relationTip && relationTip[plotid] in plotKeys then plotKeys[relationTip[plotid]]
      else NullId
    }

    method AddRelationHistory(height: int, from: KeyID, to: KeyID)
      modifies this
      ensures State() == AddHistory(old(State()), height, from, to)
      ensures plotKeys == old(plotKeys) && actionRecords == old(actionRecords)
    {
      var list: History := map[];
      if from in relationsHistoryMap {
        list := relationsHistoryMap[from];
      }
      list := list[height := to];
      relationsHistoryMap := relationsHistoryMap[from := list];
    }

    /** AcceptAction: the in-memory update, the relation appended, and the
        batch of 'P' records, which the database may fail to write. */
    method AcceptAction(height: int, txid: uint256, action: Action, relations: seq<Relation>, poc21: bool)
      returns (ok: bool, relations': seq<Relation>)
      modifies this
      ensures State() == Accept(crypto, old(State()), height, action, poc21)
      ensures relations' == relations + RelationsFor(txid, action)
      ensures plotKeys == if ok then old(plotKeys) + PlotBatch(crypto, action, poc21) else old(plotKeys)
      ensures actionRecords == old(actionRecords)
    {
      var batch: map<PlotID, KeyID> := map[];
      relations' := relations;
      match action {
        case Bind(f, t) =>
          relations' := relations' + [Relation(txid, f, t)];
          if !poc21 {
            batch := batch[crypto.plotIdOf(f) := f];
            batch := batch[crypto.plotIdOf(t) := t];
            relationTip := relationTip[crypto.plotIdOf(f) := crypto.plotIdOf(t)];
          }
          relationKeyIDTip := relationKeyIDTip[f := t];
          AddRelationHistory(height, f, t);
        case Unbind(f) =>
          relations' := relations' + [Relation(txid, f, NullId)];
          if !poc21 && crypto.plotIdOf(f) in relationTip {
            relationTip := relationTip - {crypto.plotIdOf(f)};
          }
          if f in relationKeyIDTip {
            relationKeyIDTip := relationKeyIDTip - {f};
          }
          AddRelationHistory(height, f, NullId);
        case Nil =>
      }
      ok := *;
      if ok {
        plotKeys := plotKeys + batch;
      }
    }

    method WriteRelationsToDisk(height: int, relations: seq<Relation>) returns (ok: bool)
      modifies this`actionRecords
      ensures actionRecords == if ok then old(actionRecords)[height := relations] else old(actionRecords)
    {
      ok := *;
      if ok {
        actionRecords := actionRecords[height := relations];
      }
    }

    /** ConnectBlock: every transaction's action is decoded, verified against
        its first input's outpoint and accepted; a decoding error throws out
        of the loop and nothing is recorded for the height. Otherwise the
        block's relations, if any, are written under the height (the write
        may fail). */
    method ConnectBlock(ctx: ChainContext, height: int, blk: seq<Transaction>, poc21: bool) returns (raised: bool)
      requires HasInputs(blk)
      modifies this
      ensures var o := ConnectTxs(crypto, ctx, old(State()), height, blk, poc21);
        && State() == o.mem && raised == o.raised
        && (exists oks :: |oks| == |o.batches| && plotKeys == ApplyBatches(old(plotKeys), o.batches, oks))
        && (raised || o.relations == [] ==> actionRecords == old(actionRecords))
        && (!raised && o.relations != [] ==>
              actionRecords == old(actionRecords)[height := o.relations] || actionRecords == old(actionRecords))
      ensures Consistent(old(State()), height) ==> Consistent(State(), height + 1)
    {
      ghost var m0 := State();
      ghost var pk0 := plotKeys;
      ghost var oks: seq<bool> := [];
      var relations: seq<Relation> := [];
      for i := 0 to |blk|
        invariant var o := ConnectTxs(crypto, ctx, m0, height, blk[..i], poc21);
          && !o.raised && State() == o.mem && relations == o.relations
          && |oks| == |o.batches| && plotKeys == ApplyBatches(pk0, o.batches, oks)
        invariant actionRecords == old(actionRecords)
      {
        ghost var o := ConnectTxs(crypto, ctx, m0, height, blk[..i], poc21);
        var tx := blk[i];
        ConnectSnoc(crypto, ctx, m0, height, blk, i, poc21);
        var vchSig: seq<byte> := [];
        var r := DecodeAction(ctx, tx, vchSig);
        if r.Err? {
          StepRaises(crypto, ctx, o, height, tx, poc21);
          RaisedStays(crypto, ctx, m0, height, blk, i + 1, poc21);
          if Consistent(m0, height) {
            ConnectKeepsConsistent(crypto, ctx, m0, height, blk, poc21);
          }
          return true;
        }
        var action := r.value.0;
        var sig := r.value.1;
        if !action.Nil? && VerifyAction(crypto, tx.vin[0].prevout, action, sig) {
          StepAccepts(crypto, ctx, o, height, tx, poc21, action, sig);
          var ok;
          ok, relations := AcceptAction(height, ctx.txHash(tx), action, relations, poc21);
          ApplyBatchesSnoc(pk0, o.batches, oks, PlotBatch(crypto, action, poc21), ok);
          oks := oks + [ok];
        } else {
          StepSkips(crypto, ctx, o, height, tx, poc21, action, sig);
        }
      }
      assert blk[..|blk|] == blk;
      if Consistent(m0, height) {
        ConnectKeepsConsistent(crypto, ctx, m0, height, blk, poc21);
      }
      raised := false;
      if |relations| > 0 {
        var ok := WriteRelationsToDisk(height, relations);
      }
    }

    /** removeRelationHistory: drops from's entries at `height` and above and
        moves its tips back to the latest remaining entry, or forgets `from`
        when none remain. */
    method RemoveRelationHistory(height: int, from: KeyID, poc21: bool) returns (ok: bool)
      modifies this
      ensures ok
      ensures State() == RemoveHistory(crypto, old(State()), height, from, poc21)
      ensures plotKeys == old(plotKeys) && actionRecords == old(actionRecords)
    {
      ghost var m0 := State();
      var full: History := if from in relationsHistoryMap then relationsHistoryMap[from] else map[];
      var list := EraseFrom(full, height);
      assert full == HistoryOf(m0, from);
      assert forall h :: h in list <==> h in Truncated(m0, from, height);
      assert list == Truncated(m0, from, height);
      if list == map[] {
        relationsHistoryMap := relationsHistoryMap - {from};
        if !poc21 {
          relationTip := relationTip - {crypto.plotIdOf(from)};
        }
        relationKeyIDTip := relationKeyIDTip - {from};
        return true;
      }
      // The source sorts the heights downward and takes the first one below
      // `height`; every remaining height is below it, so that is the greatest.
      relationsHistoryMap := relationsHistoryMap[from := list];
      var prevHeight := GreatestHeight(list);
      var prev := list[prevHeight];
      if !poc21 {
        relationTip := relationTip[crypto.plotIdOf(from) := crypto.plotIdOf(prev)];
      }
      relationKeyIDTip := relationKeyIDTip[from := prev];
      return true;
    }

    /** DisconnectBlock: the height's record is erased (the erase may fail),
        then every identity with an entry at the height is rewound, in
        ascending key-id order, over the identities present on entry. */
    method DisconnectBlock(height: int, poc21: bool)
      modifies this
      ensures State() == Disconnect(crypto, old(State()), height, poc21)
      ensures plotKeys == old(plotKeys)
      ensures actionRecords == old(actionRecords) - {height} || actionRecords == old(actionRecords)
      ensures Consistent(old(State()), height + 1) ==> Consistent(State(), height)
    {
      var erased: bool := *;
      if erased {
        actionRecords := actionRecords - {height};
      }
      ghost var records := actionRecords;
      ghost var m0 := State();
      ghost var target := AtHeight(m0, height);
      var pending := relationsHistoryMap.Keys;
      assert target * pending == target;
      while pending != {}
        invariant forall x :: x in pending ==> HistoryOf(State(), x) == HistoryOf(m0, x)
        invariant RewindAll(crypto, State(), target * pending, height, poc21) == RewindAll(crypto, m0, target, height, poc21)
        invariant plotKeys == old(plotKeys) && actionRecords == records
        decreases |pending|
      {
        var from := LeastKey(pending);
        var entries := if from in relationsHistoryMap then relationsHistoryMap[from] else map[];
        assert entries == HistoryOf(m0, from);
        RewindStep(crypto, State(), target, pending, from, height, poc21);
        if height in entries {
          var _ := RemoveRelationHistory(height, from, poc21);
        }
        pending := pending - {from};
      }
      assert target * {} == {};
      if Consistent(m0, height + 1) {
        DisconnectKeepsConsistent(crypto, m0, height, poc21);
      }
    }

    /** LoadRelationFromDisk: replays the relations stored under the height,
        a non-null target as a bind and the null target as an unbind; false
        when the stored record cannot be read. */
    method LoadRelationFromDisk(height: int, poc21: bool) returns (ok: bool)
      modifies this
      ensures plotKeys == old(plotKeys) && actionRecords == old(actionRecords)
      ensures !ok ==> height in actionRecords && State() == old(State())
      ensures ok ==> State() == if height in actionRecords
                                then LoadBatch(crypto, old(State()), height, actionRecords[height], poc21)
                                else old(State())
      ensures Consistent(old(State()), height) ==> Consistent(State(), height + 1)
    {
      if height in actionRecords {
        var readOk: bool := *;
        if !readOk {
          return false;
        }
        var relations := actionRecords[height];
        ghost var m0 := State();
        for i := 0 to |relations|
          invariant State() == LoadBatch(crypto, m0, height, relations[..i], poc21)
          invariant plotKeys == old(plotKeys) && actionRecords == old(actionRecords)
        {
          assert relations[..i + 1][..i] == relations[..i];
          LoadRelation(height, relations[i], poc21);
        }
        assert relations[..|relations|] == relations;
        if Consistent(m0, height) {
          LoadBatchKeepsConsistent(crypto, m0, height, relations, poc21);
        }
      }
      return true;
    }

    /** The body of LoadRelationFromDisk's loop: one stored relation replayed. */
    method LoadRelation(height: int, r: Relation, poc21: bool)
      modifies this
      ensures State() == LoadEntry(crypto, old(State()), height, r, poc21)
      ensures plotKeys == old(plotKeys) && actionRecords == old(actionRecords)
    {
      var from := r.from;
      var to := r.to;
      if to != NullId {
        if !poc21 {
          relationTip := relationTip[crypto.plotIdOf(from) := crypto.plotIdOf(to)];
        }
        relationKeyIDTip := relationKeyIDTip[from := to];
        AddRelationHistory(height, from, to);
      } else {
        if !poc21 && crypto.plotIdOf(from) in relationTip {
          relationTip := relationTip - {crypto.plotIdOf(from)};
        }
        if from in relationKeyIDTip {
          relationKeyIDTip := relationKeyIDTip - {from};
        }
        AddRelationHistory(height, from, NullId);
      }
    }

    /** ListRelations: every (from, to) pair of the key tip, once each, in
        ascending key-id order. */
    method ListRelations() returns (v: seq<(KeyID, KeyID)>)
      ensures |v| == |relationKeyIDTip|
      ensures forall i :: 0 <= i < |v| ==> v[i].0 in relationKeyIDTip && v[i].1 == relationKeyIDTip[v[i].0]
      ensures forall x :: x in relationKeyIDTip ==> exists i :: 0 <= i < |v| && v[i].0 == x
      ensures forall i, j :: 0 <= i < j < |v| ==> BlobLess(v[i].0, v[j].0)
    {
      v := [];
      var pending := relationKeyIDTip.Keys;
      while pending != {}
        invariant Listing(relationKeyIDTip, v, pending)
        decreases |pending|
      {
        var k := LeastKey(pending);
        ListingStep(relationKeyIDTip, v, pending, k);
        v := v + [(k, relationKeyIDTip[k])];
        pending := pending - {k};
      }
    }
  }
}
