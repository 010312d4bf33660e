/** The console plugin's resources: one loop that creates them and keeps a condition for each,
    one loop that deletes them and stops at the first error. */
module ConsolePlugin {
  datatype ObjectId = ObjectId(kind: string, ns: string, name: string)

  datatype CreateOutcome = Created | AlreadyExists | CreateFailed

  datatype DeleteOutcome = Deleted | NotFound | DeleteFailed

  /** The message, which repeats the object and the error text, and the time are left out. */
  datatype Condition = Condition(object': ObjectId, isTrue: bool, reason: string)

  const SUCCEEDED := "ResourceCreationHasSucceeded"
  const ALREADY_EXISTS := "ResourceAlreadyExists"
  const FAILED := "ResourceCreationFailed"

  class PluginResource {
    var conditions: seq<Condition>

    constructor (conditions: seq<Condition>)
      ensures this.conditions == conditions
    {
      this.conditions := conditions;
    }
  }

  /** The cluster: what exists, the plugin's stored conditions, and a record of how the creates
      and deletes of plugin objects and the status updates came out, each in order. */
  class Cluster {
    var objects: set<ObjectId>
    var storedConditions: seq<Condition>
    var creates: seq<(ObjectId, CreateOutcome)>
    var deletes: seq<(ObjectId, DeleteOutcome)>
    var updates: seq<bool>

    constructor (objects: set<ObjectId>)
      ensures this.objects == objects && storedConditions == []
      ensures creates == [] && deletes == [] && updates == []
    {
      this.objects := objects;
      storedConditions := [];
      creates, deletes, updates := [], [], [];
    }

    method Create(id: ObjectId) returns (r: CreateOutcome)
      modifies this`objects, this`creates
      ensures r.Created? ==> id !in old(objects)
      ensures r.AlreadyExists? ==> id in old(objects)
      ensures objects == if r.Created? then old(objects) + {id} else old(objects)
      ensures creates == old(creates) + [(id, r)]
    {
      var fails: bool := *;
      r := if fails then CreateFailed else if id in objects then AlreadyExists else Created;
      if r.Created? {
        objects := objects + {id};
      }
      creates := creates + [(id, r)];
    }

    method Delete(id: ObjectId) returns (r: DeleteOutcome)
      modifies this`objects, this`deletes
      ensures deletes == old(deletes) + [(id, r)]
      ensures r.Deleted? ==> id in old(objects)
      ensures r.NotFound? ==> id !in old(objects)
      ensures objects == if r.Deleted? then old(objects) - {id} else old(objects)
    {
      var fails: bool := *;
      r := if fails then DeleteFailed else if id in objects then Deleted else NotFound;
      if r.Deleted? {
        objects := objects - {id};
      }
      deletes := deletes + [(id, r)];
    }

    method UpdateStatus(conditions: seq<Condition>) returns (ok: bool)
      modifies this`storedConditions, this`updates
      ensures updates == old(updates) + [ok]
      ensures storedConditions == if ok then conditions else old(storedConditions)
    {
      ok := *;
      if ok {
        storedConditions := conditions;
      }
      updates := updates + [ok];
    }
  }

  /** What a condition says about the create it was made for. */
  predicate Reports(c: Condition, call: (ObjectId, CreateOutcome)) {
    && c.object' == call.0
    && (c.isTrue <==> call.1.Created?)
    && (c.reason == "ResourceCreationHasSucceeded" <==> call.1.Created?)
    && (c.reason == "ResourceAlreadyExists" <==> call.1.AlreadyExists?)
    && (c.reason == "ResourceCreationFailed" <==> call.1.CreateFailed?)
  }

  ghost predicate AllReported(conditions: seq<Condition>, calls: seq<(ObjectId, CreateOutcome)>) {
    |conditions| == |calls| && forall i :: 0 <= i < |calls| ==> Reports(conditions[i], calls[i])
  }

  /** The objects a list of create calls brought into being. */
  function CreatedBy(calls: seq<(ObjectId, CreateOutcome)>): set<ObjectId> {
    set i | 0 <= i < |calls| && calls[i].1.Created? :: calls[i].0
  }

  lemma ReasonsDiffer()
    ensures SUCCEEDED != ALREADY_EXISTS && SUCCEEDED != FAILED && ALREADY_EXISTS != FAILED
  {
    assert |SUCCEEDED| == 28 && |ALREADY_EXISTS| == 21 && |FAILED| == 22;
  }

  lemma CreatedByOneMore(calls: seq<(ObjectId, CreateOutcome)>, call: (ObjectId, CreateOutcome))
    ensures CreatedBy(calls + [call]) == CreatedBy(calls) + if call.1.Created? then {call.0} else {}
  {
    var all := calls + [call];
    forall id | id in CreatedBy(calls) ensures id in CreatedBy(all) {
      var i :| 0 <= i < |calls| && calls[i].1.Created? && calls[i].0 == id;
      assert all[i] == calls[i];
    }
    if call.1.Created? {
      assert all[|calls|] == call;
    }
  }

  /** The calls are for the first objects of the list, in order. */
  ghost predicate InOrder(calls: seq<(ObjectId, CreateOutcome)>, objects: seq<ObjectId>) {
    |calls| <= |objects| && forall i :: 0 <= i < |calls| ==> calls[i].0 == objects[i]
  }

  lemma OneMoreReported(conditions: seq<Condition>, calls: seq<(ObjectId, CreateOutcome)>, objects: seq<ObjectId>,
                        condition: Condition, call: (ObjectId, CreateOutcome))
    requires AllReported(conditions, calls) && Reports(condition, call)
    requires InOrder(calls, objects) && |calls| < |objects| && call.0 == objects[|calls|]
    ensures AllReported(conditions + [condition], calls + [call]) && InOrder(calls + [call], objects)
  {
  }

  /** Asks for one object and says in a condition how that went. */
  method CreateOne(cluster: Cluster, id: ObjectId) returns (condition: Condition, ghost call: (ObjectId, CreateOutcome))
    modifies cluster`objects, cluster`creates
    ensures call.0 == id && Reports(condition, call)
    ensures cluster.creates == old(cluster.creates) + [call]
    ensures cluster.objects == old(cluster.objects) + if call.1.Created? then {id} else {}
    ensures call.1.AlreadyExists? ==> id in old(cluster.objects)
    ensures call.1.Created? ==> id !in old(cluster.objects)
  {
    ReasonsDiffer();
    condition := Condition(id, true, SUCCEEDED);
    var r := cluster.Create(id);
    if !r.Created? {
      condition := condition.(isTrue := false);
      if r.AlreadyExists? {
        condition := condition.(reason := ALREADY_EXISTS);
      } else {
        condition := condition.(reason := FAILED);
      }
    }
    call := (id, r);
  }

  /** The answers of `n` calls of which only the last may have failed. */
  function Answers(n: nat, last: bool): seq<bool> {
    seq(n, i => last || i < n - 1)
  }

  /** Creates the objects in order, with one condition each, stored right away. A failing
      create is noted and passed over; a failing status update ends it, right after the object
      it was for, and that object's condition is not stored. */
  method CreateResources(cluster: Cluster, plugin: PluginResource, objects: seq<ObjectId>)
    returns (ok: bool, ghost calls: seq<(ObjectId, CreateOutcome)>, ghost conditions: seq<Condition>)
    modifies cluster, plugin
    ensures InOrder(calls, objects) && AllReported(conditions, calls)
    ensures if ok then |calls| == |objects| else |calls| > 0
    ensures cluster.creates == old(cluster.creates) + calls
    ensures cluster.updates == old(cluster.updates) + Answers(|calls|, ok)
    ensures plugin.conditions == old(plugin.conditions) + conditions
    ensures cluster.objects == old(cluster.objects) + CreatedBy(calls)
    ensures
      var stored := |calls| - if ok then 0 else 1;
      cluster.storedConditions ==
      if stored == 0 then old(cluster.storedConditions) else old(plugin.conditions) + conditions[..stored]
  {
    hide Reports, AllReported, InOrder, CreatedBy;
    calls, conditions := [], [];
    assert InOrder(calls, objects) && AllReported(conditions, calls) && CreatedBy(calls) == {} by {
      NothingYet(objects);
    }
    for i := 0 to |objects|
      invariant i == |calls| == |conditions|
      invariant InOrder(calls, objects) && AllReported(conditions, calls)
      invariant cluster.creates == old(cluster.creates) + calls
      invariant cluster.updates == old(cluster.updates) + Answers(i, true)
      invariant plugin.conditions == old(plugin.conditions) + conditions
      invariant cluster.objects == old(cluster.objects) + CreatedBy(calls)
      invariant cluster.storedConditions == if i == 0 then old(cluster.storedConditions) else plugin.conditions
    {
      ghost var before := cluster.storedConditions;
      var condition; ghost var call;
      condition, call := CreateOne(cluster, objects[i]);
      CreatedByOneMore(calls, call);
      OneMoreReported(conditions, calls, objects, condition, call);
      plugin.conditions := plugin.conditions + [condition];
      calls, conditions := calls + [call], conditions + [condition];
      var stored := cluster.UpdateStatus(plugin.conditions);
      assert Answers(i, true) + [stored] == Answers(i + 1, stored);
      if !stored {
        assert conditions[..i] + [condition] == conditions;
        return false, calls, conditions;
      }
    }
    assert conditions[..|conditions|] == conditions;
    return true, calls, conditions;
  }

  lemma NothingYet(objects: seq<ObjectId>)
    ensures InOrder([], objects) && AllReported([], []) && CreatedBy([]) == {}
  {
  }

  function ToSet(objects: seq<ObjectId>): set<ObjectId> {
    set i | 0 <= i < |objects| :: objects[i]
  }

  predicate Distinct(objects: seq<ObjectId>) {
    forall i, j :: 0 <= i < j < |objects| ==> objects[i] != objects[j]
  }

  lemma ToSetOneMore(objects: seq<ObjectId>, n: nat)
    requires n < |objects|
    ensures ToSet(objects[..n + 1]) == ToSet(objects[..n]) + {objects[n]}
  {
    assert objects[..n + 1][n] == objects[n];
    forall id | id in ToSet(objects[..n]) ensures id in ToSet(objects[..n + 1]) {
      var i :| 0 <= i < n && objects[..n][i] == id;
      assert objects[..n + 1][i] == id;
    }
    forall id | id in ToSet(objects[..n + 1]) ensures id in ToSet(objects[..n]) + {objects[n]} {
      var i :| 0 <= i < n + 1 && objects[..n + 1][i] == id;
      if i < n {
        assert objects[..n][i] == id;
      }
    }
  }

  /** Every object before the n-th was deleted when asked, and the n-th, if there is one, was not. */
  ghost predicate StoppedAt(calls: seq<(ObjectId, DeleteOutcome)>, objects: seq<ObjectId>, n: nat) {
    && n <= |objects| && |calls| == (if n < |objects| then n + 1 else n)
    && (forall j :: 0 <= j < n ==> calls[j] == (objects[j], Deleted))
    && (n < |objects| ==> calls[n].0 == objects[n] && !calls[n].1.Deleted?)
  }

  /** Deletes the objects in order up to the first error, NotFound included: exactly those
      before it are gone, and an object that is not there is an error. */
  method DeleteResources(cluster: Cluster, objects: seq<ObjectId>) returns (ok: bool, ghost removed: nat)
    modifies cluster`objects, cluster`deletes
    ensures removed <= |objects| && (ok <==> removed == |objects|)
    ensures old(cluster.deletes) <= cluster.deletes
    ensures StoppedAt(cluster.deletes[|old(cluster.deletes)|..], objects, removed)
    ensures Distinct(objects[..removed]) && ToSet(objects[..removed]) <= old(cluster.objects)
    ensures cluster.objects == old(cluster.objects) - ToSet(objects[..removed])
  {
    removed := 0;
    ghost var calls := [];
    for i := 0 to |objects|
      invariant removed == i == |calls|
      invariant cluster.deletes == old(cluster.deletes) + calls
      invariant forall j :: 0 <= j < i ==> calls[j] == (objects[j], Deleted)
      invariant Distinct(objects[..i]) && ToSet(objects[..i]) <= old(cluster.objects)
      invariant cluster.objects == old(cluster.objects) - ToSet(objects[..i])
    {
      var r := cluster.Delete(objects[i]);
      calls := calls + [(objects[i], r)];
      assert cluster.deletes[|old(cluster.deletes)|..] == calls;
      if !r.Deleted? {
        return false, removed;
      }
      ToSetOneMore(objects, i);
      removed := i + 1;
      forall j | 0 <= j < i ensures objects[j] != objects[i] {
        assert objects[..i][j] in ToSet(objects[..i]);
      }
    }
    assert objects[..|objects|] == objects;
    assert cluster.deletes[|old(cluster.deletes)|..] == calls;
    return true, removed;
  }

  lemma AllCreated(objects: seq<ObjectId>, calls: seq<(ObjectId, CreateOutcome)>)
    requires |calls| == |objects|
    requires forall i :: 0 <= i < |objects| ==> calls[i] == (objects[i], Created)
    ensures CreatedBy(calls) == ToSet(objects)
  {
    forall id | id in ToSet(objects) ensures id in CreatedBy(calls) {
      var i :| 0 <= i < |objects| && objects[i] == id;
      assert calls[i].0 == id;
    }
  }

  /** A create all of whose conditions are true, on a cluster that had none of the objects, and
      then a delete that succeeds, leave the cluster as it was. */
  method CreateThenDelete(cluster: Cluster, plugin: PluginResource, objects: seq<ObjectId>)
    returns (created: bool, deleted: bool)
    requires ToSet(objects) !! cluster.objects
    modifies cluster, plugin
    ensures created && deleted ==> cluster.objects == old(cluster.objects)
  {
    var before := |plugin.conditions|;
    var ok; ghost var calls, conditions;
    ok, calls, conditions := CreateResources(cluster, plugin, objects);
    created := ok && forall i :: before <= i < |plugin.conditions| ==> plugin.conditions[i].isTrue;
    if created {
      forall i | 0 <= i < |objects| ensures calls[i] == (objects[i], Created) {
        assert Reports(conditions[i], calls[i]);
        assert conditions[i] == plugin.conditions[before + i];
      }
      AllCreated(objects, calls);
    }
    ghost var removed;
    deleted, removed := DeleteResources(cluster, objects);
    assert objects[..|objects|] == objects;
  }

  lemma HoldsFirst(objects: seq<ObjectId>, n: nat)
    requires n <= |objects|
    ensures n > 0 ==> objects[0] in ToSet(objects[..n])
  {
    if n > 0 {
      assert objects[..n][0] == objects[0];
    }
  }

  /** Deleting is not idempotent. When a delete removed anything at all, whether it finished or
      not, the next one fails at the first object, which is gone, and removes nothing: what a
      failed delete left behind stays. */
  method DeleteTwice(cluster: Cluster, objects: seq<ObjectId>) returns (first: bool, second: bool, ghost removed: nat)
    modifies cluster`objects, cluster`deletes
    ensures removed <= |objects| && (first <==> removed == |objects|)
    ensures removed > 0 ==> !second && cluster.objects == old(cluster.objects) - ToSet(objects[..removed])
  {
    ghost var again;
    first, removed := DeleteResources(cluster, objects);
    second, again := DeleteResources(cluster, objects);
    HoldsFirst(objects, removed);
    HoldsFirst(objects, again);
  }
}
