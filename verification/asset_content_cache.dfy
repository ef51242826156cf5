/**
 A model of the asset content cache: a many-to-many link table between asset
 files and resource hashes, whose Changed and FlushAll events eject resource
 hashes from the output cache and from the headers cache.

 The pure part (CacheState, Event, Step) is the specification of the whole
 system of three caches; the class AssetContentCache is proved against it.
 */
module AssetCaching {
  import opened Wrappers
  import opened OutputCaching

  /** An asset file, identified by its name. */
  datatype AssetFile = AssetFile(name: string)

  /** One link: the resource `hash` depends on the asset `file`. */
  datatype Link = Link(file: AssetFile, hash: Hash)

  /** The hashes linked to `file`. */
  function Linked(links: set<Link>, file: AssetFile): set<Hash>
  {
    set l | l in links && l.file == file :: l.hash
  }

  /** Every hash that has at least one link. */
  function AllHashes(links: set<Link>): set<Hash>
  {
    set l | l in links :: l.hash
  }

  /** The link table after recording that `hash` depends on every file in `files`. */
  function WithLinks(links: set<Link>, hash: Hash, files: seq<AssetFile>): set<Link>
  {
    links + set f | f in files :: Link(f, hash)
  }

  /**
   Links accumulate: a link is present after LinkFilesToResource exactly when it
   was there before or is one of the new ones; nothing is overwritten.
   */
  lemma LinksAccumulate(links: set<Link>, hash: Hash, files: seq<AssetFile>, f: AssetFile, h: Hash)
    ensures Link(f, h) in WithLinks(links, hash, files) <==> Link(f, h) in links || (h == hash && f in files)
    ensures Linked(WithLinks(links, hash, files), f) == Linked(links, f) + (if f in files then {hash} else {})
  {
  }

  /** A hash has links after LinkFilesToResource exactly when it had some before or was given at least one file. */
  lemma AllHashesAccumulate(links: set<Link>, hash: Hash, files: seq<AssetFile>)
    ensures AllHashes(WithLinks(links, hash, files)) == AllHashes(links) + (if files == [] then {} else {hash})
  {
    if files != [] {
      assert Link(files[0], hash) in WithLinks(links, hash, files);
    }
  }

  /** The state of the output cache, the link table and the headers cache together. */
  datatype CacheState = CacheState(
    entries: map<Hash, RecordedOutput>,  // the output cache
    links: set<Link>,                     // the asset content cache's link table
    ejected: multiset<Hash>,              // how often each hash was ejected from the headers cache
    supplierCalls: seq<Hash>)             // the keys whose supplier the output cache invoked

  const Initial := CacheState(map[], {}, multiset{}, [])

  datatype Event =
    | LinkFiles(hash: Hash, files: seq<AssetFile>)
    | Changed(file: AssetFile)
    | FlushAll
    | Retrieve(key: Hash, supplier: Supplier)

  /** The state after one event. */
  function Step(st: CacheState, ev: Event): CacheState
  {
    match ev
    case LinkFiles(hash, files) => st.(links := WithLinks(st.links, hash, files))
    case Changed(file) =>
      var hs := Linked(st.links, file);
      st.(entries := st.entries - hs, ejected := st.ejected + multiset(hs))
    case FlushAll =>
      st.(entries := map[], ejected := st.ejected + multiset(AllHashes(st.links)))
    case Retrieve(key, supplier) =>
      var r := Retrieved(st.entries, key, supplier);
      st.(entries := r.entries, supplierCalls := st.supplierCalls + if r.supplierCalled then [key] else [])
  }

  /** What an event answers: Retrieve answers an output or the supplier's failure, the others nothing. */
  function Reply(st: CacheState, ev: Event): Option<Result<RecordedOutput, SupplierFailure>>
  {
    if ev.Retrieve? then Some(Retrieved(st.entries, ev.key, ev.supplier).result) else None
  }

  function Run(st: CacheState, evs: seq<Event>): CacheState
    decreases |evs|
  {
    if evs == [] then st else Run(Step(st, evs[0]), evs[1..])
  }

  /** The reply to each event of `evs`, run from `st`. */
  function Replies(st: CacheState, evs: seq<Event>): (rs: seq<Option<Result<RecordedOutput, SupplierFailure>>>)
    ensures |rs| == |evs|
    decreases |evs|
  {
    if evs == [] then [] else [Reply(st, evs[0])] + Replies(Step(st, evs[0]), evs[1..])
  }

  /** Whether `ev` invalidates the output cached under `h`. */
  predicate Evicts(st: CacheState, ev: Event, h: Hash)
  {
    ev.FlushAll? || (ev.Changed? && Link(ev.file, h) in st.links)
  }

  /** No event of `evs`, run from `st`, invalidates `h`. */
  predicate Keeps(st: CacheState, evs: seq<Event>, h: Hash)
    decreases |evs|
  {
    evs == [] || (!Evicts(st, evs[0], h) && Keeps(Step(st, evs[0]), evs[1..], h))
  }

  /**
   Changed(f) is exact: the output of a hash linked to f is evicted, every
   other output stays as it was, and the headers cache receives one Eject
   for each hash linked to f and none for any other hash.
   */
  lemma ChangedEvictsExactlyLinked(st: CacheState, f: AssetFile, h: Hash)
    ensures var st' := Step(st, Changed(f));
      && (h in st'.entries <==> h in st.entries && Link(f, h) !in st.links)
      && (h in st'.entries ==> st'.entries[h] == st.entries[h])
      && st'.ejected[h] == st.ejected[h] + (if Link(f, h) in st.links then 1 else 0)
      && st'.links == st.links
  {
    var hs := Linked(st.links, f);
    assert multiset(hs)[h] == if h in hs then 1 else 0;
  }

  /** FlushAll clears every output and ejects each hash that has any link exactly once. */
  lemma FlushAllEjectsEveryLinkedHash(st: CacheState, h: Hash)
    ensures var st' := Step(st, FlushAll);
      && st'.entries == map[]
      && st'.ejected[h] == st.ejected[h] + (if exists f :: Link(f, h) in st.links then 1 else 0)
      && st'.links == st.links
  {
    var hs := AllHashes(st.links);
    assert multiset(hs)[h] == if h in hs then 1 else 0;
  }

  /** A second FlushAll changes no output and no link, and ejects the same hashes again. */
  lemma FlushAllIdempotent(st: CacheState)
    ensures var once := Step(st, FlushAll);
      var twice := Step(once, FlushAll);
      && twice.entries == once.entries
      && twice.links == once.links
      && twice.ejected - once.ejected == once.ejected - st.ejected
  {
  }

  /** Changing a file twice evicts nothing more than changing it once. */
  lemma ChangedTwiceEvictsNothingMore(st: CacheState, f: AssetFile)
    ensures var once := Step(st, Changed(f));
      Step(once, Changed(f)).entries == once.entries
  {
  }

  /** Running events never shortens the supplier log. */
  lemma {:induction false} SupplierCallsGrow(st: CacheState, evs: seq<Event>)
    ensures |st.supplierCalls| <= |Run(st, evs).supplierCalls|
    ensures Run(st, evs).supplierCalls[..|st.supplierCalls|] == st.supplierCalls
    decreases |evs|
  {
    if evs != [] {
      var st1 := Step(st, evs[0]);
      SupplierCallsGrow(st1, evs[1..]);
      assert st1.supplierCalls[..|st.supplierCalls|] == st.supplierCalls;
    }
  }

  /**
   At most one computation per key between invalidations: while no event
   invalidates `h`, its cached output stays, every Retrieve of `h` answers that
   output, and no supplier is invoked for `h`.
   */
  lemma {:induction false} CachedOutputIsServed(st: CacheState, evs: seq<Event>, h: Hash)
    requires h in st.entries
    requires Keeps(st, evs, h)
    ensures var fin := Run(st, evs);
      && h in fin.entries && fin.entries[h] == st.entries[h]
      && |st.supplierCalls| <= |fin.supplierCalls|
      && h !in fin.supplierCalls[|st.supplierCalls|..]
    ensures forall i :: 0 <= i < |evs| && evs[i].Retrieve? && evs[i].key == h ==>
      Replies(st, evs)[i] == Some(Ok(st.entries[h]))
    decreases |evs|
  {
    if evs != [] {
      var st1 := Step(st, evs[0]);
      assert h in st1.entries && st1.entries[h] == st.entries[h];
      assert h !in st1.supplierCalls[|st.supplierCalls|..];
      CachedOutputIsServed(st1, evs[1..], h);
      SupplierCallsGrow(st1, evs[1..]);
      var fin := Run(st1, evs[1..]);
      assert fin == Run(st, evs);
      var k0, k1 := |st.supplierCalls|, |st1.supplierCalls|;
      assert fin.supplierCalls[k0..] == st1.supplierCalls[k0..] + fin.supplierCalls[k1..];
      forall i | 0 <= i < |evs| && evs[i].Retrieve? && evs[i].key == h
        ensures Replies(st, evs)[i] == Some(Ok(st.entries[h]))
      {
        if i > 0 {
          assert Replies(st, evs)[i] == Replies(st1, evs[1..])[i - 1];
          assert evs[1..][i - 1] == evs[i];
        }
      }
    }
  }

  /**
   After Changed(f) evicts a hash linked to f, the next Retrieve computes the new
   output; while nothing invalidates the hash again, later Retrieves answer
   that new output and never invoke their suppliers.
   */
  lemma RepopulatedOutputIsServed(st: CacheState, f: AssetFile, h: Hash, newOutput: RecordedOutput, later: seq<Event>)
    requires Link(f, h) in st.links
    requires Keeps(Step(Step(st, Changed(f)), Retrieve(h, Supplies(newOutput))), later, h)
    ensures var evicted := Step(st, Changed(f));
      var refilled := Step(evicted, Retrieve(h, Supplies(newOutput)));
      && h !in evicted.entries
      && Reply(evicted, Retrieve(h, Supplies(newOutput))) == Some(Ok(newOutput))
      && forall i :: 0 <= i < |later| && later[i].Retrieve? && later[i].key == h ==>
           Replies(refilled, later)[i] == Some(Ok(newOutput))
  {
    var evicted := Step(st, Changed(f));
    var refilled := Step(evicted, Retrieve(h, Supplies(newOutput)));
    CachedOutputIsServed(refilled, later, h);
  }

  lemma EjectOneMore(m: map<Hash, RecordedOutput>, done: set<Hash>, h: Hash)
    ensures (m - done) - {h} == m - (done + {h})
  {
  }

  /** The asset content cache; it shares the output cache and the headers cache with the rest of the host. */
  class AssetContentCache {
    const headers: HeadersCache
    const outputs: OutputCache
    var links: set<Link>

    /** The abstract state of the three caches. */
    ghost function State(): CacheState
      reads this, headers, outputs
    {
      CacheState(outputs.entries, links, multiset(headers.Ejections), outputs.SupplierCalls)
    }

    constructor (headers: HeadersCache, outputs: OutputCache)
      ensures this.headers == headers && this.outputs == outputs
      ensures links == {}
    {
      this.headers := headers;
      this.outputs := outputs;
      links := {};
    }

    method LinkFilesToResource(hash: Hash, files: seq<AssetFile>)
      modifies this
      ensures State() == Step(old(State()), LinkFiles(hash, files))
      ensures links == WithLinks(old(links), hash, files)
      ensures unchanged(headers, outputs)
    {
      links := WithLinks(links, hash, files);
    }

    /** Ejects every hash linked to `file` from the headers cache and from the output cache. */
    method Changed(file: AssetFile)
      modifies headers, outputs
      ensures State() == Step(old(State()), Event.Changed(file))
      ensures outputs.entries == old(outputs.entries) - Linked(links, file)
      ensures outputs.SupplierCalls == old(outputs.SupplierCalls)
      ensures |old(headers.Ejections)| <= |headers.Ejections|
      ensures headers.Ejections[..|old(headers.Ejections)|] == old(headers.Ejections)
      ensures multiset(headers.Ejections[|old(headers.Ejections)|..]) == multiset(Linked(links, file))
    {
      var hs := Linked(links, file);
      EjectEach(hs, true);
      assert headers.Ejections == old(headers.Ejections) + headers.Ejections[|old(headers.Ejections)|..];
    }

    /** Ejects every linked hash from the headers cache and clears the output cache. */
    method FlushAll()
      modifies headers, outputs
      ensures State() == Step(old(State()), Event.FlushAll)
      ensures outputs.entries == map[]
      ensures outputs.SupplierCalls == old(outputs.SupplierCalls)
      ensures |old(headers.Ejections)| <= |headers.Ejections|
      ensures headers.Ejections[..|old(headers.Ejections)|] == old(headers.Ejections)
      ensures multiset(headers.Ejections[|old(headers.Ejections)|..]) == multiset(AllHashes(links))
    {
      var hs := AllHashes(links);
      EjectEach(hs, false);
      assert headers.Ejections == old(headers.Ejections) + headers.Ejections[|old(headers.Ejections)|..];
      outputs.FlushAll();
    }

    /** Ejects each hash of `hs` once from the headers cache and, if `fromOutputs`, from the output cache. */
    method EjectEach(hs: set<Hash>, fromOutputs: bool)
      modifies headers, outputs
      ensures |old(headers.Ejections)| <= |headers.Ejections|
      ensures headers.Ejections[..|old(headers.Ejections)|] == old(headers.Ejections)
      ensures multiset(headers.Ejections[|old(headers.Ejections)|..]) == multiset(hs)
      ensures outputs.entries == if fromOutputs then old(outputs.entries) - hs else old(outputs.entries)
      ensures outputs.SupplierCalls == old(outputs.SupplierCalls)
    {
      var pending := hs;
      ghost var done: set<Hash> := {};
      ghost var added: seq<Hash> := [];
      while pending != {}
        invariant pending + done == hs && pending !! done
        invariant headers.Ejections == old(headers.Ejections) + added
        invariant multiset(added) == multiset(done)
        invariant outputs.entries == if fromOutputs then old(outputs.entries) - done else old(outputs.entries)
        invariant outputs.SupplierCalls == old(outputs.SupplierCalls)
        decreases pending
      {
        var h :| h in pending;
        headers.Eject(h);
        if fromOutputs {
          outputs.Eject(h);
          EjectOneMore(old(outputs.entries), done, h);
        }
        pending, done, added := pending - {h}, done + {h}, added + [h];
      }
      assert headers.Ejections[|old(headers.Ejections)|..] == added;
    }
  }

  /**
   A Retrieve made directly on the output cache behind an asset content cache
   is the Retrieve event of the whole system: it moves State() by Step and
   answers what Reply says.
   */
  method RetrieveOutput(cache: AssetContentCache, key: Hash, supplier: Supplier)
    returns (r: Result<RecordedOutput, SupplierFailure>)
    modifies cache.outputs
    ensures cache.State() == Step(old(cache.State()), Retrieve(key, supplier))
    ensures Some(r) == Reply(old(cache.State()), Retrieve(key, supplier))
  {
    r := cache.outputs.Retrieve(key, supplier);
  }
}
