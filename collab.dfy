/** The room registry of src/collab/useCollaboration.ts: every editor opens
    one shared document per room, kept in a module-wide document cache, and
    connects one provider per room, kept in a provider cache. Documents and
    providers are opaque tokens; a serial number stands for the identity of
    each object the hook creates. */
module Collab {
  import opened Shared
  import opened Strings

  /** `getRoom`: the app type, a dash, then the document id. */
  function Room(docId: string, appType: string): (r: string)
    ensures |r| == |appType| + 1 + |docId|
    ensures r[..|appType|] == appType && r[|appType|] == '-' && r[|appType| + 1..] == docId
  {
    appType + "-" + docId
  }

  /** For app types without a dash (every type the dashboard offers) the room
      determines both the app type and the document id, so two editors share
      a room exactly when they edit the same document of the same type. */
  lemma RoomInjective(docId1: string, appType1: string, docId2: string, appType2: string)
    requires '-' !in appType1 && '-' !in appType2
    ensures Room(docId1, appType1) == Room(docId2, appType2) <==> (docId1 == docId2 && appType1 == appType2)
  {
    if Room(docId1, appType1) == Room(docId2, appType2) {
      assert appType1 + ['-'] + docId1 == Room(docId1, appType1);
      assert appType2 + ['-'] + docId2 == Room(docId2, appType2);
      SeparatorSplit(appType1, docId1, appType2, docId2, '-');
    }
  }

  /** The dash-free condition is needed: a dash in the app type lets two
      different documents share a room. */
  lemma RoomCollidesWithDashedType()
    ensures Room("c", "a-b") == Room("b-c", "a")
  {
  }

  /** A `Y.Doc` the hook created. */
  datatype Doc = Doc(serial: nat)

  /** A `WebsocketProvider` syncing `doc` in `room`. */
  datatype Provider = Provider(serial: nat, room: string, doc: Doc)

  /** The two module-level caches, and what the hook did to providers. */
  class Registry {
    var docCache: map<string, Doc>
    var providerCache: map<string, Provider>
    /** Providers whose `destroy()` has been called. */
    var destroyed: set<Provider>
    /** The serial the next object the hook creates gets. */
    var nextSerial: nat

    /** Every cached provider serves the room it is cached under and has not
        been destroyed, and every cached object was created before
        `nextSerial`, so a new object differs from all cached ones. */
    ghost predicate Valid()
      reads this
    {
      (forall r :: r in providerCache ==> providerCache[r].room == r) &&
      (forall r :: r in providerCache ==> providerCache[r] !in destroyed) &&
      (forall r :: r in providerCache ==> providerCache[r].serial < nextSerial) &&
      (forall r :: r in docCache ==> docCache[r].serial < nextSerial) &&
      (forall p :: p in destroyed ==> p.serial < nextSerial)
    }

    constructor ()
      ensures Valid() && docCache == map[] && providerCache == map[] && destroyed == {}
    {
      docCache := map[];
      providerCache := map[];
      destroyed := {};
      nextSerial := 0;
    }

    /** The render part of `useYDoc`: a component that already holds a
        document (`docRef`) keeps it; otherwise it takes the room's cached
        document, creating and caching a new one if there is none. */
    method DocFor(room: string, docRef: Option<Doc>) returns (doc: Doc)
      requires Valid()
      modifies this
      ensures Valid()
      ensures providerCache == old(providerCache) && destroyed == old(destroyed)
      ensures docRef.Some? ==> doc == docRef.value && docCache == old(docCache)
      ensures docRef.None? && room in old(docCache) ==>
        doc == old(docCache)[room] && docCache == old(docCache)
      ensures docRef.None? && room !in old(docCache) ==>
        docCache == old(docCache)[room := doc] && doc.serial == old(nextSerial) &&
        (forall r :: r in old(docCache) ==> old(docCache)[r] != doc)
      ensures docRef.None? ==> doc.serial < nextSerial
      ensures nextSerial >= old(nextSerial)
    {
      if docRef.Some? {
        return docRef.value;
      }
      if room !in docCache {
        docCache := docCache[room := Doc(nextSerial)];
        nextSerial := nextSerial + 1;
      }
      doc := docCache[room];
    }

    /** The effect of `useYDoc`: connect a provider for the room unless one
        is cached; a cached provider is kept as it is. */
    method Connect(room: string, doc: Doc)
      requires Valid()
      modifies this
      ensures Valid()
      ensures docCache == old(docCache) && destroyed == old(destroyed)
      ensures room in old(providerCache) ==> providerCache == old(providerCache)
      ensures room !in old(providerCache) ==>
        providerCache == old(providerCache)[room := Provider(old(nextSerial), room, doc)]
      ensures room in providerCache && nextSerial >= old(nextSerial)
    {
      if room !in providerCache {
        providerCache := providerCache[room := Provider(nextSerial, room, doc)];
        nextSerial := nextSerial + 1;
      }
    }

    /** The effect's cleanup: with a cached provider, destroy it and forget
        both the provider and the document of the room; without one, do
        nothing. Other rooms keep their entries in both cases. */
    method Teardown(room: string)
      requires Valid()
      modifies this
      ensures Valid() && nextSerial == old(nextSerial)
      ensures room in old(providerCache) ==>
        providerCache == old(providerCache) - {room} &&
        docCache == old(docCache) - {room} &&
        destroyed == old(destroyed) + {old(providerCache)[room]}
      ensures room !in old(providerCache) ==>
        providerCache == old(providerCache) && docCache == old(docCache) && destroyed == old(destroyed)
      ensures forall r :: r != room ==>
        (r in providerCache <==> r in old(providerCache)) && (r in providerCache ==> providerCache[r] == old(providerCache)[r]) &&
        (r in docCache <==> r in old(docCache)) && (r in docCache ==> docCache[r] == old(docCache)[r])
    {
      if room in providerCache {
        var prov := providerCache[room];
        destroyed := destroyed + {prov};
        providerCache := providerCache - {room};
        docCache := docCache - {room};
      }
    }
  }

  /** Two components rendering the same room, neither holding a document
      yet, get the same cached document, and only one provider is cached.
      That provider is for their document when the room had none; a provider
      left over from earlier (as after the double effect) is kept. */
  method TwoEditorsShareRoom(reg: Registry, room: string) returns (d1: Doc, d2: Doc)
    requires reg.Valid()
    modifies reg
    ensures reg.Valid()
    ensures d1 == d2 && room in reg.docCache && reg.docCache[room] == d1
    ensures room in reg.providerCache && reg.providerCache[room].room == room
    ensures room !in old(reg.providerCache) ==> reg.providerCache[room].doc == d1
  {
    d1 := reg.DocFor(room, None);
    reg.Connect(room, d1);
    d2 := reg.DocFor(room, None);
    reg.Connect(room, d2);
  }

  /** React's development double effect (connect, clean up, connect again)
      on the component's own document: the room ends with a live provider for
      that document while the document cache no longer holds it, so the next
      component to render the room gets a different document. */
  method DoubleEffect(reg: Registry, room: string) returns (mine: Doc, next: Doc)
    requires reg.Valid()
    modifies reg
    ensures reg.Valid()
    ensures room in reg.providerCache && reg.providerCache[room].doc == mine
    ensures reg.providerCache[room] !in reg.destroyed
    ensures mine != next
  {
    mine := reg.DocFor(room, None);
    reg.Connect(room, mine);
    reg.Teardown(room);
    reg.Connect(room, mine);
    next := reg.DocFor(room, None);
  }
}
