/** The graph objects the connector emits and the job state it writes them to:
    entity keys `<type>:<id>`, entities, direct relationships, and the SDK's
    job state reduced to a set of entity keys, the entities added, the
    relationship batches added and a data map. */
module Graph {
  import opened Wrappers
  import opened Text
  import opened Seqs
  import Errors

  const ACCOUNT_TYPE := "insightvm_account"
  const USER_TYPE := "insightvm_user"
  const SITE_TYPE := "insightvm_site"
  const SCAN_TYPE := "insightvm_scan"
  const ASSET_TYPE := "insightvm_asset"
  /** The finding entity type; src/constants.ts has no FINDING entry. */
  const FINDING_TYPE := "insightvm_finding"

  const ACCOUNT_ENTITY_DATA_KEY := "entity:account"
  /** The data key of the asset count map; src/constants.ts does not define it. */
  const ASSET_VULN_COUNT_MAP := "asset_vuln_count_map"

  /** Every key the connector derives has the form `<type>:<id>`. */
  function EntityKey(typ: string, id: string): string
  {
    typ + ":" + id
  }

  /** The id part of a key of the given type, if the key has that type. */
  function KeyId(typ: string, key: string): (id: Option<string>)
    ensures id.Some? ==> key == EntityKey(typ, id.value)
  {
    if StartsWith(key, typ + ":") then
      assert key == key[..|typ| + 1] + key[|typ| + 1..];
      Some(key[|typ| + 1..])
    else None
  }

  /** Reading the id back out of a key gives the id it was made from. */
  lemma KeyIdOfEntityKey(typ: string, id: string)
    ensures KeyId(typ, EntityKey(typ, id)) == Some(id)
  {
    var k := EntityKey(typ, id);
    assert k[..|typ| + 1] == typ + ":";
    assert k[|typ| + 1..] == id;
  }

  /** Keys of two different types never coincide, whatever their ids, as
      long as neither type name contains a colon. */
  lemma EntityKeysOfDistinctTypes(t1: string, t2: string, a: string, b: string)
    requires t1 != t2 && NoColon(t1) && NoColon(t2)
    ensures EntityKey(t1, a) != EntityKey(t2, b)
  {
    var k1, k2 := EntityKey(t1, a), EntityKey(t2, b);
    if |t1| < |t2| {
      assert k1[|t1|] == ':' && k2[|t1|] == t2[|t1|];
    } else if |t2| < |t1| {
      assert k2[|t2|] == ':' && k1[|t2|] == t1[|t2|];
    } else {
      var i :| 0 <= i < |t1| && t1[i] != t2[i];
      assert k1[i] == t1[i] && k2[i] == t2[i];
    }
  }

  /** An asset's name: `hostName || ip || id` may be a string or the number. */
  datatype AssetName = NameText(text: string) | NameNumber(number: nat)

  datatype Entity =
    | Account(key: string, name: string, webLink: Option<string>, accessUrl: string)
    | User(key: string, id: string, username: string, email: string, webLink: Option<string>)
    | Site(key: string, id: string, name: string, siteType: string, importance: string,
           assets: int, webLink: Option<string>)
    | Scan(key: string, id: string, siteId: nat, name: string, active: Option<bool>,
           state: string, webLink: Option<string>)
    | Asset(key: string, id: string, displayName: AssetName, platform: string,
            ipAddress: Option<string>, webLink: Option<string>,
            numCriticalVulnerabilities: Option<nat>,
            lastScanDate: Option<string>, lastSeenOn: Option<string>)
    | Finding(key: string, id: string, name: string, category: string, open: Option<bool>,
              severity: string, numericSeverity: int)
  {
    /** The entity's `_type`. */
    function Type(): string
    {
      match this
      case Account(_, _, _, _) => ACCOUNT_TYPE
      case User(_, _, _, _, _) => USER_TYPE
      case Site(_, _, _, _, _, _, _) => SITE_TYPE
      case Scan(_, _, _, _, _, _, _) => SCAN_TYPE
      case Asset(_, _, _, _, _, _, _, _, _) => ASSET_TYPE
      case Finding(_, _, _, _, _, _, _) => FINDING_TYPE
    }
  }

  datatype RelClass = HAS | OWNS | MONITORS | PERFORMED

  datatype Relationship = Relationship(cls: RelClass, fromType: string, fromKey: string,
                                       toType: string, toKey: string)

  /** createDirectRelationship({_class, from, to}) between two entities. */
  function Edge(cls: RelClass, from: Entity, to: Entity): (r: Relationship)
    ensures r.fromKey == from.key && r.toKey == to.key
    ensures r.fromType == from.Type() && r.toType == to.Type()
  {
    Relationship(cls, from.Type(), from.key, to.Type(), to.key)
  }

  /** One relationship of class cls from `from` to each entity of tos. */
  function EdgesFrom(cls: RelClass, from: Entity, tos: seq<Entity>): (r: seq<Relationship>)
    ensures |r| == |tos|
    ensures forall i :: 0 <= i < |tos| ==> r[i] == Edge(cls, from, tos[i])
  {
    if tos == [] then [] else EdgesFrom(cls, from, tos[..|tos| - 1]) + [Edge(cls, from, tos[|tos| - 1])]
  }

  lemma EdgesFromSnoc(cls: RelClass, from: Entity, tos: seq<Entity>, t: Entity)
    ensures EdgesFrom(cls, from, tos + [t]) == EdgesFrom(cls, from, tos) + [Edge(cls, from, t)]
  {
    assert (tos + [t])[..|tos|] == tos;
  }

  /** One addRelationship call per entity of tos: a relationship of class cls
      from `from` to it, each in a batch of its own. */
  function EdgeBatches(cls: RelClass, from: Entity, tos: seq<Entity>): (r: seq<seq<Relationship>>)
    ensures |r| == |tos|
  {
    if tos == [] then [] else EdgeBatches(cls, from, tos[..|tos| - 1]) + [[Edge(cls, from, tos[|tos| - 1])]]
  }

  lemma EdgeBatchesSnoc(cls: RelClass, from: Entity, tos: seq<Entity>, t: Entity)
    ensures EdgeBatches(cls, from, tos + [t]) == EdgeBatches(cls, from, tos) + [[Edge(cls, from, t)]]
  {
    assert (tos + [t])[..|tos|] == tos;
  }

  /** The batches hold exactly the relationships EdgesFrom lists, one each. */
  lemma {:induction false} EdgeBatchesAreSingletons(cls: RelClass, from: Entity, tos: seq<Entity>)
    ensures EdgeBatches(cls, from, tos) == Singletons(EdgesFrom(cls, from, tos))
  {
    if tos != [] {
      var init := tos[..|tos| - 1];
      EdgeBatchesAreSingletons(cls, from, init);
      assert tos == init + [tos[|tos| - 1]];
      EdgesFromSnoc(cls, from, init, tos[|tos| - 1]);
      SingletonsSnoc(EdgesFrom(cls, from, init), Edge(cls, from, tos[|tos| - 1]));
    }
  }

  /** One loop iteration of "add f(x) and a cls relationship from `from` to it"
      extends both specifications by that entity and that relationship. */
  lemma EntityAndEdgeStep<A>(cls: RelClass, from: Entity, xs: seq<A>, f: A -> Entity, i: nat,
                             es: seq<Entity>, bs: seq<seq<Relationship>>)
    requires i < |xs|
    ensures es + Map(xs[..i + 1], f) == es + Map(xs[..i], f) + [f(xs[i])]
    ensures bs + EdgeBatches(cls, from, Map(xs[..i + 1], f))
            == bs + EdgeBatches(cls, from, Map(xs[..i], f)) + [[Edge(cls, from, f(xs[i]))]]
  {
    PrefixSnoc(xs, i);
    MapSnoc(xs[..i], xs[i], f);
    EdgeBatchesSnoc(cls, from, Map(xs[..i], f), f(xs[i]));
    AppendSnoc(es, Map(xs[..i], f), f(xs[i]));
    AppendSnoc(bs, EdgeBatches(cls, from, Map(xs[..i], f)), [Edge(cls, from, f(xs[i]))]);
  }

  /** Why a step stopped: a request that threw, or a property read on an
      undefined value (a TypeError in the source). */
  datatype StepError = ApiFailure(error: Errors.ApiError) | MissingValue(what: string)

  datatype VulnCounts = VulnCounts(critical: nat, severe: nat, moderate: nat)

  datatype Data = AccountData(entity: Entity) | VulnCountMap(counts: map<string, VulnCounts>)

  /** A key is among the keys iff some entity carries it. */
  lemma {:induction false} KeysOfListed(es: seq<Entity>, key: string)
    ensures key in KeysOf(es) <==> exists i :: 0 <= i < |es| && es[i].key == key
  {
    if es != [] {
      var init := es[..|es| - 1];
      KeysOfListed(init, key);
      assert forall i :: 0 <= i < |init| ==> init[i] == es[i];
      if key == es[|es| - 1].key {
        assert es[|es| - 1].key == key;
      }
    }
  }

  function KeysOf(es: seq<Entity>): set<string>
  {
    if es == [] then {} else KeysOf(es[..|es| - 1]) + {es[|es| - 1].key}
  }

  /** findEntity: the first entity added under the key. */
  function FindIn(es: seq<Entity>, key: string): (r: Option<Entity>)
    ensures r.Some? <==> key in KeysOf(es)
    ensures r.Some? ==> r.value.key == key && r.value in es
  {
    if es == [] then None
    else
      var f := FindIn(es[..|es| - 1], key);
      if f.Some? then f
      else if es[|es| - 1].key == key then Some(es[|es| - 1])
      else None
  }

  /** Entities added under other keys do not change what findEntity returns. */
  lemma {:induction false} FindInUnaffected(es: seq<Entity>, ys: seq<Entity>, key: string)
    requires forall y :: y in ys ==> y.key != key
    ensures FindIn(es + ys, key) == FindIn(es, key)
  {
    if ys != [] {
      var init := ys[..|ys| - 1];
      assert (es + ys)[..|es + ys| - 1] == es + init;
      FindInUnaffected(es, init, key);
    } else {
      assert es + ys == es;
    }
  }

  /** iterateEntities({_type}): the entities of one type, in the order added. */
  function OfType(es: seq<Entity>, typ: string): (r: seq<Entity>)
    ensures forall i :: 0 <= i < |r| ==> r[i].Type() == typ
  {
    if es == [] then []
    else
      var last := es[|es| - 1];
      OfType(es[..|es| - 1], typ) + (if last.Type() == typ then [last] else [])
  }

  /** The positions of the entities of one type. */
  function OfTypeAt(es: seq<Entity>, typ: string): nat -> bool
  {
    (i: nat) => i < |es| && es[i].Type() == typ
  }

  /** iterateEntities keeps the order of addition and lists each entity of
      the type once per time it was added: the result is the entities at the
      increasing positions that hold that type, and at no others. */
  lemma {:induction false} OfTypeInOrder(es: seq<Entity>, typ: string)
    ensures var idx := IndicesWhere(|es|, OfTypeAt(es, typ));
            Selects(idx, |es|, OfTypeAt(es, typ)) && |OfType(es, typ)| == |idx| && forall j :: 0 <= j < |idx| ==> idx[j] < |es| && OfType(es, typ)[j] == es[idx[j]]
  {
    IndicesWhereSelects(|es|, OfTypeAt(es, typ));
    OfTypePrefixInOrder(es, typ, |es|);
    assert es[..|es|] == es;
  }

  lemma {:induction false} OfTypePrefixInOrder(es: seq<Entity>, typ: string, m: nat)
    requires m <= |es|
    ensures var idx := IndicesWhere(m, OfTypeAt(es, typ));
            |OfType(es[..m], typ)| == |idx| && forall j :: 0 <= j < |idx| ==> idx[j] < |es| && OfType(es[..m], typ)[j] == es[idx[j]]
  {
    if m > 0 {
      OfTypePrefixInOrder(es, typ, m - 1);
      var p := OfTypeAt(es, typ);
      var idx0, r0 := IndicesWhere(m - 1, p), OfType(es[..m - 1], typ);
      assert es[..m][..m - 1] == es[..m - 1] && es[..m][m - 1] == es[m - 1];
      var idx, r := IndicesWhere(m, p), OfType(es[..m], typ);
      assert idx == idx0 + (if p(m - 1) then [m - 1] else []);
      assert r == r0 + (if es[m - 1].Type() == typ then [es[m - 1]] else []);
      if es[m - 1].Type() == typ {
        assert p(m - 1);
        forall j | 0 <= j < |idx|
          ensures idx[j] < |es| && r[j] == es[idx[j]]
        {
          if j < |idx0| {
            assert idx[j] == idx0[j] && r[j] == r0[j];
          }
        }
      } else {
        assert !p(m - 1);
      }
    } else {
      assert es[..m] == [];
    }
  }

  /** Hence iterateEntities yields exactly the entities of the type that
      were added. */
  lemma OfTypeMembers(es: seq<Entity>, typ: string)
    ensures forall e :: e in OfType(es, typ) <==> e in es && e.Type() == typ
  {
    var p := OfTypeAt(es, typ);
    var idx, r := IndicesWhere(|es|, p), OfType(es, typ);
    OfTypeInOrder(es, typ);
    forall e | e in r
      ensures e in es && e.Type() == typ
    {
      var j :| 0 <= j < |r| && r[j] == e;
      assert p(idx[j]);
    }
    forall e | e in es && e.Type() == typ
      ensures e in r
    {
      var i :| 0 <= i < |es| && es[i] == e;
      assert p(i);
      var j :| 0 <= j < |idx| && idx[j] == i;
      assert r[j] == e;
    }
  }

  lemma OfTypeAssetsAreAssets(es: seq<Entity>)
    ensures forall k :: 0 <= k < |OfType(es, ASSET_TYPE)| ==> OfType(es, ASSET_TYPE)[k].Asset?
  {
    forall k | 0 <= k < |OfType(es, ASSET_TYPE)|
      ensures OfType(es, ASSET_TYPE)[k].Asset?
    {
      assert OfType(es, ASSET_TYPE)[k].Type() == ASSET_TYPE;
    }
  }

  lemma OfTypeSitesAreSites(es: seq<Entity>)
    ensures forall k :: 0 <= k < |OfType(es, SITE_TYPE)| ==> OfType(es, SITE_TYPE)[k].Site?
  {
    forall k | 0 <= k < |OfType(es, SITE_TYPE)|
      ensures OfType(es, SITE_TYPE)[k].Site?
    {
      assert OfType(es, SITE_TYPE)[k].Type() == SITE_TYPE;
    }
  }

  class JobState {
    var keys: set<string>
    var entities: seq<Entity>
    var batches: seq<seq<Relationship>>
    var data: map<string, Data>

    ghost predicate Valid()
      reads this
    {
      keys == KeysOf(entities)
    }

    constructor ()
      ensures Valid()
      ensures entities == [] && batches == [] && data == map[]
    {
      keys, entities, batches, data := {}, [], [], map[];
    }

    /** jobState.hasKey: some entity added so far carries the key. */
    predicate HasKey(key: string)
      reads this
      ensures Valid() ==> (HasKey(key) <==> exists i :: 0 <= i < |entities| && entities[i].key == key)
    {
      KeysOfListed(entities, key);
      key in keys
    }

    function FindEntity(key: string): (r: Option<Entity>)
      reads this
      requires Valid()
      ensures r.Some? <==> HasKey(key)
      ensures r.Some? ==> r.value.key == key
    {
      FindIn(entities, key)
    }

    /** iterateEntities({ _type }): the entities added so far that have the
        type, in the order they were added. */
    function EntitiesOfType(typ: string): (r: seq<Entity>)
      reads this
      ensures forall i :: 0 <= i < |r| ==> r[i].Type() == typ && r[i] in entities
    {
      OfTypeMembers(entities, typ);
      OfType(entities, typ)
    }

    /** getData(ACCOUNT_ENTITY_DATA_KEY) holds an account entity. */
    predicate HasAccount()
      reads this
      ensures HasAccount() <==> exists e :: ACCOUNT_ENTITY_DATA_KEY in data && data[ACCOUNT_ENTITY_DATA_KEY] == AccountData(e)
    {
      ACCOUNT_ENTITY_DATA_KEY in data && data[ACCOUNT_ENTITY_DATA_KEY].AccountData?
    }

    /** The account entity stored by the account step. */
    function AccountEntity(): (e: Entity)
      reads this
      requires HasAccount()
      ensures data[ACCOUNT_ENTITY_DATA_KEY] == AccountData(e)
    {
      data[ACCOUNT_ENTITY_DATA_KEY].entity
    }

    method AddEntity(e: Entity)
      requires Valid()
      modifies this
      ensures Valid()
      ensures entities == old(entities) + [e] && keys == old(keys) + {e.key}
      ensures batches == old(batches) && data == old(data)
    {
      assert (entities + [e])[..|entities|] == entities;
      entities := entities + [e];
      keys := keys + {e.key};
    }

    /** addRelationship: a batch of one. */
    method AddRelationship(r: Relationship)
      requires Valid()
      modifies this
      ensures Valid()
      ensures batches == old(batches) + [[r]]
      ensures entities == old(entities) && keys == old(keys) && data == old(data)
    {
      batches := batches + [[r]];
    }

    method AddRelationships(rs: seq<Relationship>)
      requires Valid()
      modifies this
      ensures Valid()
      ensures batches == old(batches) + [rs]
      ensures entities == old(entities) && keys == old(keys) && data == old(data)
    {
      batches := batches + [rs];
    }

    method SetData(key: string, value: Data)
      requires Valid()
      modifies this
      ensures Valid()
      ensures data == old(data)[key := value]
      ensures entities == old(entities) && keys == old(keys) && batches == old(batches)
    {
      data := data[key := value];
    }
  }

  /** RELATIONSHIPS_BATCH_SIZE of the batching steps. */
  const BATCH_SIZE: nat := 5

  /** `buffer.push(r); if (buffer.length >= 5) { addRelationships(buffer);
      buffer = []; }`: a buffer that reaches the batch size is sent as one
      batch and emptied. */
  method PushRelationship(js: JobState, buffer: seq<Relationship>, r: Relationship)
    returns (rest: seq<Relationship>, ghost flushed: seq<seq<Relationship>>)
    requires js.Valid() && |buffer| < BATCH_SIZE
    modifies js
    ensures js.Valid()
    ensures js.entities == old(js.entities) && js.keys == old(js.keys) && js.data == old(js.data)
    ensures js.batches == old(js.batches) + flushed
    ensures forall i :: 0 <= i < |flushed| ==> |flushed[i]| == BATCH_SIZE
    ensures |rest| < BATCH_SIZE
    ensures Flatten(flushed) + rest == buffer + [r]
  {
    rest := buffer + [r];
    flushed := [];
    if |rest| >= BATCH_SIZE {
      js.AddRelationships(rest);
      flushed := [rest];
      assert Flatten(flushed) == rest + Flatten(flushed[1..]);
      rest := [];
    }
  }

  /** `if (buffer.length) addRelationships(buffer)`: the final flush sends a
      non-empty remainder as one last batch. */
  method FlushRemainder(js: JobState, buffer: seq<Relationship>)
    requires js.Valid()
    modifies js
    ensures js.Valid()
    ensures js.entities == old(js.entities) && js.keys == old(js.keys) && js.data == old(js.data)
    ensures js.batches == old(js.batches) + (if buffer == [] then [] else [buffer])
  {
    if |buffer| > 0 {
      js.AddRelationships(buffer);
    }
  }

  /** Full batches followed by the final flush are exactly Chunks of all the
      relationships pushed. */
  lemma BatchesAfterFlush(bs: seq<seq<Relationship>>, full: seq<seq<Relationship>>, buffer: seq<Relationship>)
    requires |buffer| < BATCH_SIZE
    requires forall i :: 0 <= i < |full| ==> |full[i]| == BATCH_SIZE
    ensures bs + full + (if buffer == [] then [] else [buffer])
            == bs + Chunks(Flatten(full) + buffer, BATCH_SIZE)
  {
    var tail: seq<seq<Relationship>> := if buffer == [] then [] else [buffer];
    FullBatchesAreChunks(full, buffer, BATCH_SIZE);
    AppendAssoc(bs, full, tail);
  }
}
