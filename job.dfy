/**
 * The job registry of backend-docker/pier/job.go: a map from job ID to
 * job, with upsert, lookup, and a listing sorted by ID. The mutex is left
 * out and the operations are sequential.
 */
module Jobs {
  import opened Wrappers
  import opened GoStrings

  /** An error wrapped with a context message; cause is None for a nil cause. */
  datatype PierError = PierError(context: string, cause: Option<string>)

  /** JobState: an error (None for nil) and a status line. */
  datatype JobState = JobState(error: Option<PierError>, status: string)

  /** Job; created is the creation time as a number. */
  datatype Job = Job(id: string, serviceID: string, input: string, created: int, state: JobState, outputVolume: string)
  {
    /** Job.SetState: the job with a new state and every other field as it was. */
    function SetState(s: JobState): (j: Job)
      ensures j.state == s
      ensures j.(state := this.state) == this
    {
      this.(state := s)
    }

    /** The output-volume update the registry applies: only that field changes. */
    function SetOutputVolume(v: string): (j: Job)
      ensures j.outputVolume == v
      ensures j.(outputVolume := this.outputVolume) == this
    {
      this.(outputVolume := v)
    }
  }

  /** jobArray.Less: ID order, Go's `<` on strings. */
  predicate Less(a: Job, b: Job)
  {
    LexLess(a.id, b.id)
  }

  /** No job in s is Less than the one before it. */
  ghost predicate AdjacentOrdered(s: seq<Job>)
  {
    forall k :: 0 < k < |s| ==> !Less(s[k], s[k - 1])
  }

  /** Strictly ascending IDs, neighbour by neighbour. */
  ghost predicate StrictlyAscending(s: seq<Job>)
  {
    forall k :: 0 < k < |s| ==> Less(s[k - 1], s[k])
  }

  /** Neighbour order extends to every pair, so IDs in a listing are all different. */
  lemma {:induction false} AscendingPairwise(s: seq<Job>, i: nat, j: nat)
    requires StrictlyAscending(s) && i < j < |s|
    ensures Less(s[i], s[j]) && s[i].id != s[j].id
    decreases j - i
  {
    if i + 1 < j {
      AscendingPairwise(s, i, j - 1);
      LexLessTransitive(s[i].id, s[j - 1].id, s[j].id);
    }
    LexLessIrreflexive(s[i].id);
  }

  /** JobList: the cache of jobs by ID. */
  class JobList {
    var cache: map<string, Job>

    /** Every job is stored under its own ID. */
    ghost predicate Valid()
      reads this
    {
      forall k :: k in cache ==> cache[k].id == k
    }

    /** NewJobList: an empty cache. */
    constructor ()
      ensures Valid() && cache == map[]
    {
      cache := map[];
    }

    /** add: store the job under its ID, replacing any job with that ID. */
    method Add(job: Job)
      requires Valid()
      modifies this
      ensures Valid()
      ensures cache == old(cache)[job.id := job]
    {
      cache := cache[job.id := job];
    }

    /** get: the job with that ID, or None (ok == false). */
    function Get(id: string): (r: Option<Job>)
      reads this
      ensures r.Some? <==> id in cache
      ensures r.Some? ==> r.value == cache[id]
    {
      if id in cache then Some(cache[id]) else None
    }

    /**
     * setState: replace the state of an existing job; an ID that is not
     * in the registry changes nothing.
     */
    method SetState(id: string, s: JobState)
      requires Valid()
      modifies this
      ensures Valid()
      ensures id in old(cache) ==> cache == old(cache)[id := old(cache)[id].SetState(s)]
      ensures id !in old(cache) ==> cache == old(cache)
    {
      if id in cache {
        cache := cache[id := cache[id].SetState(s)];
      }
    }

    /** setOutputVolume: record the output volume of an existing job. */
    method SetOutputVolume(id: string, v: string)
      requires Valid()
      modifies this
      ensures Valid()
      ensures id in old(cache) ==> cache == old(cache)[id := old(cache)[id].SetOutputVolume(v)]
      ensures id !in old(cache) ==> cache == old(cache)
    {
      if id in cache {
        cache := cache[id := cache[id].SetOutputVolume(v)];
      }
    }

    /**
     * list: every cached job exactly once, in ascending ID order. The
     * cache is copied into an array in map order and sorted in place.
     */
    method List() returns (all: seq<Job>)
      requires Valid()
      ensures |all| == |cache|
      ensures multiset(all) == multiset(cache.Values)
      ensures StrictlyAscending(all)
    {
      var a := CopyJobs(cache);
      SortByID(a);
      all := a[..];
      OrderedCopyAscends(all, cache);
    }
  }

  /** The fill loop of list: the cached jobs, in the map's iteration order. */
  method CopyJobs(cache: map<string, Job>) returns (a: array<Job>)
    requires forall k :: k in cache ==> cache[k].id == k
    ensures fresh(a) && a.Length == |cache|
    ensures multiset(a[..]) == multiset(cache.Values)
  {
    a := new Job[|cache|];
    var keys := cache.Keys;
    ghost var taken: set<Job> := {};
    var i := 0;
    while keys != {}
      invariant 0 <= i <= a.Length && |keys| == a.Length - i
      invariant keys <= cache.Keys
      invariant multiset(a[..i]) == multiset(taken)
      invariant forall x :: x in taken ==> x.id in cache && cache[x.id] == x && x.id !in keys
      invariant forall k :: k in cache && k !in keys ==> cache[k] in taken
      decreases keys
    {
      var k :| k in keys;
      var job := cache[k];
      assert job !in taken;
      ghost var before := a[..i];
      a[i] := job;
      assert a[..i + 1] == before + [job];
      TakeOne(before, a[..i + 1], taken, job);
      taken := taken + {job};
      keys := keys - {k};
      i := i + 1;
    }
    assert a[..i] == a[..];
    AllTaken(cache, taken);
  }

  /** Appending a job not yet taken adds it to the multiset of taken jobs. */
  lemma TakeOne(before: seq<Job>, after: seq<Job>, taken: set<Job>, job: Job)
    requires multiset(before) == multiset(taken) && job !in taken
    requires after == before + [job]
    ensures multiset(after) == multiset(taken + {job})
  {
  }

  /** Once every key is taken, the taken jobs are the cached ones. */
  lemma AllTaken(cache: map<string, Job>, taken: set<Job>)
    requires forall x :: x in taken ==> x.id in cache && cache[x.id] == x
    requires forall k :: k in cache ==> cache[k] in taken
    ensures taken == cache.Values
  {
    forall x | x in cache.Values ensures x in taken {
      var k :| k in cache && cache[k] == x;
    }
  }

  /** Sorted by Less and holding each stored job once, a listing has strictly ascending IDs. */
  lemma OrderedCopyAscends(all: seq<Job>, cache: map<string, Job>)
    requires forall k :: k in cache ==> cache[k].id == k
    requires AdjacentOrdered(all) && multiset(all) == multiset(cache.Values)
    ensures StrictlyAscending(all)
  {
    forall k | 0 < k < |all| ensures Less(all[k - 1], all[k]) {
      DistinctNeighbours(all, k);
      assert all[k - 1] in multiset(all) && all[k] in multiset(all);
      assert all[k - 1] in cache.Values && all[k] in cache.Values;
      LexLessTotal(all[k - 1].id, all[k].id);
    }
  }

  /** Neighbours in a sequence whose elements occur once are different. */
  lemma DistinctNeighbours(s: seq<Job>, k: nat)
    requires 0 < k < |s|
    requires forall x :: multiset(s)[x] <= 1
    ensures s[k - 1] != s[k]
  {
    var pair := [s[k - 1], s[k]];
    assert s == s[..k - 1] + pair + s[k + 1..];
    assert multiset(s) == multiset(s[..k - 1]) + multiset(pair) + multiset(s[k + 1..]);
    assert multiset(pair)[s[k]] <= multiset(s)[s[k]] <= 1;
    assert multiset(pair) == multiset{s[k - 1], s[k]};
  }

  /** Exchange two neighbours. */
  method SwapDown(a: array<Job>, j: nat)
    requires 0 < j < a.Length
    modifies a
    ensures a[..] == old(a[..])[j - 1 := old(a[j])][j := old(a[j - 1])]
    ensures multiset(a[..]) == multiset(old(a[..]))
  {
    ghost var s := a[..];
    a[j - 1], a[j] := a[j], a[j - 1];
    assert a[..] == s[..j - 1] + [s[j], s[j - 1]] + s[j + 1..];
    assert s == s[..j - 1] + [s[j - 1], s[j]] + s[j + 1..];
  }

  /** One pass of the insertion sort: a[i] moves down to its place in the ordered a[..i]. */
  method SiftDown(a: array<Job>, i: nat)
    requires i < a.Length && AdjacentOrdered(a[..i])
    modifies a
    ensures AdjacentOrdered(a[..i + 1])
    ensures multiset(a[..]) == multiset(old(a[..]))
  {
    var j := i;
    while j > 0 && Less(a[j], a[j - 1])
      invariant 0 <= j <= i
      invariant forall k :: 0 < k < j ==> !Less(a[k], a[k - 1])
      invariant forall k :: j < k <= i ==> !Less(a[k], a[k - 1])
      invariant 0 < j < i ==> !Less(a[j + 1], a[j - 1])
      invariant multiset(a[..]) == multiset(old(a[..]))
    {
      LexLessAsymmetric(a[j].id, a[j - 1].id);
      SwapDown(a, j);
      j := j - 1;
    }
  }

  /** sort.Sort(jobArray(all)): an insertion sort by Less, swapping neighbours. */
  method SortByID(a: array<Job>)
    modifies a
    ensures AdjacentOrdered(a[..])
    ensures multiset(a[..]) == multiset(old(a[..]))
  {
    for i := 0 to a.Length
      invariant AdjacentOrdered(a[..i])
      invariant multiset(a[..]) == multiset(old(a[..]))
    {
      SiftDown(a, i);
    }
    assert a[..a.Length] == a[..];
  }
}
