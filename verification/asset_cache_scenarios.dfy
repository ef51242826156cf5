/**
 The asset content cache's test scenarios, replayed against the class contracts:
 each method builds fresh caches, runs the scenario's calls and states what
 the scenario observes.
 */
module AssetCacheScenarios {
  import opened Wrappers
  import opened OutputCaching
  import opened AssetCaching

  /** FlushAll ejects every linked hash, including one linked to a single file, and removes the content. */
  method FlushAllEjectsAllHeaders() returns (headers: HeadersCache, outputs: OutputCache)
    ensures multiset(headers.Ejections) == multiset{"12345", "23456", "34567"}
    ensures outputs.entries == map[]
  {
    headers := new HeadersCache();
    outputs := new OutputCache();
    var cache := new AssetContentCache(headers, outputs);
    var f1, f2, f3, f4, f5 := AssetFile("1"), AssetFile("2"), AssetFile("3"), AssetFile("4"), AssetFile("5");
    cache.LinkFilesToResource("12345", [f1, f2, f3]);
    ghost var links1 := cache.links;
    cache.LinkFilesToResource("23456", [f2, f3, f4]);
    ghost var links2 := cache.links;
    cache.LinkFilesToResource("34567", [f5]);
    assert AllHashes(cache.links) == {"12345", "23456", "34567"} by {
      AllHashesAccumulate({}, "12345", [f1, f2, f3]);
      AllHashesAccumulate(links1, "23456", [f2, f3, f4]);
      AllHashesAccumulate(links2, "34567", [f5]);
    }
    cache.FlushAll();
    assert multiset(headers.Ejections) == multiset{"12345", "23456", "34567"} by {
      assert headers.Ejections[0..] == headers.Ejections;
      assert multiset({"12345", "23456", "34567"}) == multiset{"12345", "23456", "34567"};
    }
  }

  /** Changed ejects the hashes linked to the changed file; a second Changed is not an error. */
  method ChangedEjectsHeaders() returns (headers: HeadersCache)
    ensures "12345" in headers.Ejections
    ensures "23456" in headers.Ejections
  {
    headers := new HeadersCache();
    var outputs := new OutputCache();
    var cache := new AssetContentCache(headers, outputs);
    var f1, f2, f3, f4 := AssetFile("1"), AssetFile("2"), AssetFile("3"), AssetFile("4");
    cache.LinkFilesToResource("12345", [f1, f2, f3]);
    ghost var links1 := cache.links;
    cache.LinkFilesToResource("23456", [f2, f3, f4]);
    assert "12345" in Linked(cache.links, f1) by {
      LinksAccumulate({}, "12345", [f1, f2, f3], f1, "12345");
      LinksAccumulate(links1, "23456", [f2, f3, f4], f1, "12345");
    }
    cache.Changed(f1);
    assert "12345" in headers.Ejections by {
      assert "12345" in multiset(headers.Ejections[0..]);
    }
    ghost var log1 := headers.Ejections;
    assert "23456" in Linked(cache.links, f2) by {
      LinksAccumulate(links1, "23456", [f2, f3, f4], f2, "23456");
    }
    cache.Changed(f2);
    assert "23456" in headers.Ejections by {
      assert "23456" in multiset(headers.Ejections[|log1|..]);
      assert headers.Ejections == log1 + headers.Ejections[|log1|..];
    }
  }

  /**
   The first half of LinkFilesThenClearCache: link three resources to files,
   store one output per resource, and serve each again with a supplier that
   fails if called.
   */
  method LinkStoreAndServe(output1A: RecordedOutput, output2A: RecordedOutput, output3A: RecordedOutput)
    returns (cache: AssetContentCache, replies: seq<Result<RecordedOutput, SupplierFailure>>)
    ensures fresh(cache) && fresh(cache.outputs) && fresh(cache.headers)
    ensures Linked(cache.links, AssetFile("1")) == {"resource1", "resource2"}
    ensures cache.outputs.entries == map["resource1" := output1A, "resource2" := output2A, "resource3" := output3A]
    ensures replies == [Ok(output1A), Ok(output2A), Ok(output3A)]
  {
    var headers := new HeadersCache();
    var outputs := new OutputCache();
    cache := new AssetContentCache(headers, outputs);
    var f1, f2, f3, f4 := AssetFile("1"), AssetFile("2"), AssetFile("3"), AssetFile("4");
    var r1, r2, r3 := "resource1", "resource2", "resource3";
    cache.LinkFilesToResource(r1, [f1, f2]);
    ghost var links1 := cache.links;
    cache.LinkFilesToResource(r2, [f1, f2, f3]);
    ghost var links2 := cache.links;
    cache.LinkFilesToResource(r3, [f2, f3, f4]);
    assert Linked(cache.links, f1) == {r1, r2} by {
      LinksAccumulate({}, r1, [f1, f2], f1, r1);
      LinksAccumulate(links1, r2, [f1, f2, f3], f1, r1);
      LinksAccumulate(links2, r3, [f2, f3, f4], f1, r1);
    }

    // first pass: each resource is computed and stored
    var r := outputs.Retrieve(r1, Supplies(output1A));
    r := outputs.Retrieve(r2, Supplies(output2A));
    r := outputs.Retrieve(r3, Supplies(output3A));
    ghost var stored := map[r1 := output1A, r2 := output2A, r3 := output3A];
    assert outputs.entries == stored;

    // second pass: a supplier that fails if called is never called
    var a := outputs.Retrieve(r1, Fails);
    assert a == Ok(output1A) && outputs.entries == stored;
    var b := outputs.Retrieve(r2, Fails);
    assert b == Ok(output2A) && outputs.entries == stored;
    var c := outputs.Retrieve(r3, Fails);
    replies := [a, b, c];
  }

  /**
   The second half of LinkFilesThenClearCache: after Changed(file1) only
   resource3 is cached; resource1 is recomputed once and then served, resource2
   is recomputed, resource3 is served without calling its supplier.
   */
  method RetrieveAfterChange(outputs: OutputCache, output3A: RecordedOutput,
                             output1B: RecordedOutput, output2B: RecordedOutput)
    returns (replies: seq<Result<RecordedOutput, SupplierFailure>>)
    requires outputs.entries == map["resource3" := output3A]
    modifies outputs
    ensures replies == [Ok(output1B), Ok(output1B), Ok(output1B), Ok(output2B), Ok(output3A)]
  {
    var r1, r2, r3 := "resource1", "resource2", "resource3";
    var d := outputs.Retrieve(r1, Supplies(output1B));
    assert outputs.entries == map[r3 := output3A, r1 := output1B];
    var e := outputs.Retrieve(r1, Fails);
    var f := outputs.Retrieve(r1, Fails);
    var g := outputs.Retrieve(r2, Supplies(output2B));
    var h := outputs.Retrieve(r3, Fails);
    replies := [d, e, f, g, h];
  }

  /**
   Outputs are stored once and served again without calling the supplier;
   Changed(file1) evicts exactly the resources linked to file1, whose next
   Retrieve computes the new output that later Retrieves serve; resource3,
   not linked to file1, keeps its first output.
   */
  method LinkFilesThenClearCache(output1A: RecordedOutput, output2A: RecordedOutput, output3A: RecordedOutput,
                                 output1B: RecordedOutput, output2B: RecordedOutput)
    returns (replies: seq<Result<RecordedOutput, SupplierFailure>>)
    ensures replies == [Ok(output1A), Ok(output2A), Ok(output3A),
                        Ok(output1B), Ok(output1B), Ok(output1B), Ok(output2B), Ok(output3A)]
  {
    var cache, served := LinkStoreAndServe(output1A, output2A, output3A);
    cache.Changed(AssetFile("1"));
    assert cache.outputs.entries == map["resource3" := output3A];
    var recomputed := RetrieveAfterChange(cache.outputs, output3A, output1B, output2B);
    replies := served + recomputed;
  }
}
