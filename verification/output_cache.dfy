/**
 A model of the output cache (a lazy keyed store of recorded responses) and of
 the headers cache that the asset content cache ejects entries from.
 */
module OutputCaching {
  import opened Wrappers

  /** A resource hash: the opaque key of one rendered resource variant. */
  type Hash = string

  /** A recorded response. Its body and headers are opaque here; outputs are compared by identity. */
  class RecordedOutput {
    constructor ()
    {
    }
  }

  /** The supplier handed to Retrieve: it either yields an output or fails (throws). */
  datatype Supplier = Supplies(output: RecordedOutput) | Fails

  /** The failure of a supplier, propagated to the caller of Retrieve. */
  datatype SupplierFailure = SupplierFailed

  /** What one Retrieve answers, the entries it leaves behind, and whether it invoked the supplier. */
  datatype Retrieval = Retrieval(
    result: Result<RecordedOutput, SupplierFailure>,
    entries: map<Hash, RecordedOutput>,
    supplierCalled: bool)

  /** Retrieve on the entries `entries`: a stored output is served, otherwise the supplier computes one. */
  function Retrieved(entries: map<Hash, RecordedOutput>, key: Hash, supplier: Supplier): Retrieval
  {
    if key in entries then Retrieval(Ok(entries[key]), entries, false)
    else match supplier
      case Supplies(output) => Retrieval(Ok(output), entries[key := output], true)
      case Fails => Retrieval(Err(SupplierFailed), entries, true)
  }

  /**
   What Retrieve promises: a hit serves the stored output and never consults the
   supplier, a miss always consults it, a successful answer is what is now
   stored under the key, a failing supplier stores nothing (so a later Retrieve
   retries), and no entry under another key changes.
   */
  lemma RetrieveContract(entries: map<Hash, RecordedOutput>, key: Hash, supplier: Supplier)
    ensures var r := Retrieved(entries, key, supplier);
      && (key in entries ==> r == Retrieval(Ok(entries[key]), entries, false))
      && (key !in entries ==> r.supplierCalled)
      && (r.result.Ok? ==> key in r.entries && r.entries[key] == r.result.value)
      && (r.result.Err? ==> r.entries == entries && key !in entries)
      && r.entries - {key} == entries - {key}
  {
  }

  /** A miss returns the supplier's output and stores it under the key. */
  lemma RetrieveMissStoresSupplied(entries: map<Hash, RecordedOutput>, key: Hash, output: RecordedOutput)
    requires key !in entries
    ensures Retrieved(entries, key, Supplies(output)).result == Ok(output)
    ensures Retrieved(entries, key, Supplies(output)).entries == entries[key := output]
  {
  }

  /**
   Once a Retrieve has answered, a later Retrieve of the same key answers the
   same output, whatever its supplier, and does not invoke that supplier.
   */
  lemma RetrieveAgainHits(entries: map<Hash, RecordedOutput>, key: Hash, first: Supplier, later: Supplier)
    requires Retrieved(entries, key, first).result.Ok?
    ensures var r := Retrieved(entries, key, first);
      Retrieved(r.entries, key, later) == Retrieval(r.result, r.entries, false)
  {
  }

  /** The output cache: resource hash to recorded output, filled lazily by Retrieve. */
  class OutputCache {
    var entries: map<Hash, RecordedOutput>
    /** The keys for which a supplier was invoked, in order. */
    ghost var SupplierCalls: seq<Hash>

    constructor ()
      ensures entries == map[] && SupplierCalls == []
    {
      entries := map[];
      SupplierCalls := [];
    }

    method Retrieve(key: Hash, supplier: Supplier) returns (r: Result<RecordedOutput, SupplierFailure>)
      modifies this
      ensures var t := Retrieved(old(entries), key, supplier);
        r == t.result && entries == t.entries &&
        SupplierCalls == old(SupplierCalls) + (if t.supplierCalled then [key] else [])
    {
      if key in entries {
        r := Ok(entries[key]);
      } else {
        SupplierCalls := SupplierCalls + [key];
        match supplier
        case Supplies(output) =>
          entries := entries[key := output];
          r := Ok(output);
        case Fails =>
          r := Err(SupplierFailed);
      }
    }

    /** Removes the entry under `key`; a missing key is not an error. */
    method Eject(key: Hash)
      modifies this
      ensures entries == old(entries) - {key}
      ensures SupplierCalls == old(SupplierCalls)
    {
      entries := entries - {key};
    }

    method FlushAll()
      modifies this
      ensures entries == map[]
      ensures SupplierCalls == old(SupplierCalls)
    {
      entries := map[];
    }
  }

  /** The headers cache, seen through its one operation Eject; the log records every Eject call. */
  class HeadersCache {
    ghost var Ejections: seq<Hash>

    constructor ()
      ensures Ejections == []
    {
      Ejections := [];
    }

    method Eject(key: Hash)
      modifies this
      ensures Ejections == old(Ejections) + [key]
    {
      Ejections := Ejections + [key];
    }
  }
}
