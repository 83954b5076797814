// go/cmd/gcsobjtable/db.go: the SQL table behind the object table, kept as a
// set of (object_uid, node_id) pairs, which is what its primary key says it is.
module LocationDatabase {
  import opened Types
  import opened Collections

  function RowsOf(rows: set<(Uid, NodeId)>, uid: Uid): (r: set<NodeId>)
    ensures forall n :: n in r <==> (uid, n) in rows
  {
    set row | row in rows && row.0 == uid :: row.1
  }

  // One way of reading the rows of a uid back: every row once, in some order.
  ghost predicate Listing(rows: set<(Uid, NodeId)>, uid: Uid, nodes: seq<NodeId>) {
    Elements(nodes) == RowsOf(rows, uid) && NoDuplicates(nodes)
  }

  // The rows after a committed flush: the flushed map overrides what was there.
  function Override(rows: set<(Uid, NodeId)>, locations: map<Uid, seq<NodeId>>): set<(Uid, NodeId)> {
    (set row | row in rows && row.0 !in locations) + (set u, n | u in locations && n in locations[u] :: (u, n))
  }

  // When a flush commits: the engine accepts the statements, there is a row to
  // insert, and no list repeats a node.
  ghost predicate Commits(locations: map<Uid, seq<NodeId>>, healthy: bool) {
    && healthy
    && (exists u :: u in locations && locations[u] != [])
    && (forall u :: u in locations ==> NoDuplicates(locations[u]))
  }

  lemma OverrideRows(rows: set<(Uid, NodeId)>, locations: map<Uid, seq<NodeId>>, uid: Uid)
    ensures RowsOf(Override(rows, locations), uid) ==
            if uid in locations then Elements(locations[uid]) else RowsOf(rows, uid)
  {
  }

  lemma OverrideIs(rows: set<(Uid, NodeId)>, locations: map<Uid, seq<NodeId>>, after: set<(Uid, NodeId)>)
    requires forall u, n ::
      (u, n) in after <==> if u in locations then n in locations[u] else (u, n) in rows
    ensures after == Override(rows, locations)
  {
    forall row ensures row in after <==> row in Override(rows, locations) {
      assert row == (row.0, row.1);
    }
  }

  // The arguments that the insert statement takes for one uid.
  function Pairs(uid: Uid, nodes: seq<NodeId>): seq<(Uid, NodeId)> {
    seq(|nodes|, i requires 0 <= i < |nodes| => (uid, nodes[i]))
  }

  lemma PairsElements(uid: Uid, nodes: seq<NodeId>)
    ensures forall u, n :: (u, n) in Pairs(uid, nodes) <==> u == uid && n in nodes
    ensures NoDuplicates(Pairs(uid, nodes)) <==> NoDuplicates(nodes)
  {
    var p := Pairs(uid, nodes);
    forall u, n ensures (u, n) in p <==> u == uid && n in nodes {
      if u == uid && n in nodes {
        var i :| 0 <= i < |nodes| && nodes[i] == n;
        assert p[i] == (u, n);
      }
    }
    if NoDuplicates(p) {
      forall i, j | 0 <= i < j < |nodes| ensures nodes[i] != nodes[j] {
        assert p[i] != p[j];
      }
    }
  }

  // A flush without a row to insert ends after VALUES, which is incomplete input.
  lemma NothingToInsertFails(locations: map<Uid, seq<NodeId>>, healthy: bool)
    requires forall u :: u in locations ==> locations[u] == []
    ensures !Commits(locations, healthy)
  {
  }

  lemma SomethingToInsertCommits(locations: map<Uid, seq<NodeId>>, u: Uid)
    requires u in locations && locations[u] != []
    requires forall v, i, j :: v in locations && 0 <= i < j < |locations[v]| ==> locations[v][i] != locations[v][j]
    ensures Commits(locations, true) && !Commits(locations, false)
  {
  }

  // What the engine makes of the four calls of a flush, besides checking keys and
  // syntax: each may be refused for reasons of its own.
  datatype Engine = Engine(begins: bool, deletes: bool, inserts: bool, commits: bool)

  predicate Healthy(engine: Engine) {
    engine.begins && engine.deletes && engine.inserts && engine.commits
  }

  class Database {
    var rows: set<(Uid, NodeId)>

    // Opens the table, keeping the rows that an earlier run left in the file.
    constructor (stored: set<(Uid, NodeId)>)
      ensures rows == stored
    {
      rows := stored;
    }

    // Deletes every row of the uids in the map and inserts the map's pairs, in
    // one transaction.
    method InsertOrUpdateObjectLocations(objectLocations: map<Uid, seq<NodeId>>, engine: Engine) returns (ok: bool)
      modifies this
      ensures ok <==> Commits(objectLocations, Healthy(engine))
      ensures rows == if ok then Override(old(rows), objectLocations) else old(rows)
      ensures ok <==>
              && engine == Engine(true, true, true, true)
              && (exists u :: u in objectLocations && objectLocations[u] != [])
              && forall u, i, j :: u in objectLocations && 0 <= i < j < |objectLocations[u]| ==>
                                     objectLocations[u][i] != objectLocations[u][j]
      ensures forall u, n :: (u, n) in rows <==>
                if ok && u in objectLocations then n in objectLocations[u] else (u, n) in old(rows)
    {
      if !engine.begins {
        return false;
      }
      var begun := rows;
      var deleteArgs, valueArgs := Arguments(objectLocations);
      if !engine.deletes {
        return false;
      }
      rows := set row | row in rows && row.0 !in deleteArgs;
      if valueArgs == [] {
        // The statement ends after VALUES: incomplete input.
        rows := begun;
        assert forall u, n :: u in objectLocations && n in objectLocations[u] ==> (u, n) in valueArgs;
        assert forall u :: u in objectLocations && objectLocations[u] != [] ==> objectLocations[u][0] in objectLocations[u];
        return false;
      }
      ghost var kept := rows;
      for i := 0 to |valueArgs|
        invariant rows == kept + Elements(valueArgs[..i])
        invariant NoDuplicates(valueArgs[..i])
      {
        assert valueArgs[..i + 1] == valueArgs[..i] + [valueArgs[i]];
        if valueArgs[i] in rows {
          assert valueArgs[i].0 in deleteArgs;
          var j :| 0 <= j < i && valueArgs[j] == valueArgs[i];
          rows := begun;
          return false;
        }
        rows := rows + {valueArgs[i]};
      }
      assert valueArgs[..|valueArgs|] == valueArgs;
      if !engine.inserts || !engine.commits {
        rows := begun;
        return false;
      }
      assert valueArgs[0].0 in objectLocations;
      OverrideIs(old(rows), objectLocations, rows);
      ok := true;
    }

    // The argument slices of the two statements, filled by walking the map.
    method Arguments(objectLocations: map<Uid, seq<NodeId>>)
      returns (deleteArgs: seq<Uid>, valueArgs: seq<(Uid, NodeId)>)
      ensures Elements(deleteArgs) == objectLocations.Keys
      ensures forall u, n :: (u, n) in valueArgs <==> u in objectLocations && n in objectLocations[u]
      ensures NoDuplicates(valueArgs) <==> forall u :: u in objectLocations ==> NoDuplicates(objectLocations[u])
    {
      deleteArgs, valueArgs := [], [];
      var todo := objectLocations.Keys;
      while todo != {}
        invariant todo <= objectLocations.Keys
        invariant Elements(deleteArgs) == objectLocations.Keys - todo
        invariant forall u, n :: (u, n) in valueArgs <==> u in objectLocations && u !in todo && n in objectLocations[u]
        invariant NoDuplicates(valueArgs) <==>
                  forall u :: u in objectLocations && u !in todo ==> NoDuplicates(objectLocations[u])
      {
        var uid :| uid in todo;
        deleteArgs := deleteArgs + [uid];
        var nodes := objectLocations[uid];
        ghost var before := valueArgs;
        for i := 0 to |nodes|
          invariant valueArgs == before + Pairs(uid, nodes[..i])
        {
          assert Pairs(uid, nodes[..i + 1]) == Pairs(uid, nodes[..i]) + [(uid, nodes[i])];
          valueArgs := valueArgs + [(uid, nodes[i])];
        }
        assert nodes[..|nodes|] == nodes;
        PairsElements(uid, nodes);
        NoDuplicatesAppend(before, Pairs(uid, nodes));
        todo := todo - {uid};
      }
    }

    // Reads the rows of a uid back, unless the engine fails.
    method GetObjectLocations(objectUid: Uid, failed: bool) returns (nodeIds: Result<seq<NodeId>>)
      ensures nodeIds.Err? <==> failed
      ensures nodeIds.Ok? ==> Listing(rows, objectUid, nodeIds.value)
      ensures nodeIds.Ok? ==>
              && (forall n :: n in nodeIds.value <==> (objectUid, n) in rows)
              && forall i, j :: 0 <= i < j < |nodeIds.value| ==> nodeIds.value[i] != nodeIds.value[j]
    {
      if failed {
        return Err;
      }
      var found: seq<NodeId> := [];
      var todo := set row | row in rows && row.0 == objectUid;
      while todo != {}
        invariant todo <= set row | row in rows && row.0 == objectUid
        invariant forall n :: n in found <==> (objectUid, n) in rows && (objectUid, n) !in todo
        invariant NoDuplicates(found)
      {
        var row :| row in todo;
        found := found + [row.1];
        todo := todo - {row};
      }
      nodeIds := Ok(found);
    }
  }
}
