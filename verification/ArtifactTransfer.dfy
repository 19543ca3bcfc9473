/** Copying a bundle's artifact bytes into a target store and taking them back on failure. */
module ArtifactTransfer {
  import opened Common

  type Digest = string
  type Bytes = string

  /** A reference; its path is a function of the digest, so the digest stands for the path. */
  datatype Reference = Reference(sha256: Digest, size: int, mediaType: string)

  /** What one copy meets from outside: the source's answer and where the target's write fails.
      `Caught` errors are OSError and ValueError, everything else is `Uncaught`. */
  datatype Fault = Caught | Uncaught
  datatype Reading = Data(bytes: Bytes) | ReadFails(fault: Fault)
  datatype Writing = Stores | FailsBeforeLink(fault: Fault) | FailsAfterLink(fault: Fault)
  datatype Step = Step(reading: Reading, writing: Writing)

  datatype Outcome = Transferred(created: seq<Digest>) | Refused | Escaped(created: seq<Digest>)

  function Addresses(references: seq<Reference>): set<Digest>
  {
    set r | r in references :: r.sha256
  }

  /** The prior files untouched, every reference stored, and each new file under its own digest. */
  ghost predicate Delivered(hash: Bytes -> Digest, before: map<Digest, Bytes>, references: seq<Reference>, after: map<Digest, Bytes>)
  {
    && after.Keys == before.Keys + Addresses(references)
    && (forall d :: d in before ==> after[d] == before[d])
    && (forall d :: d in after && d !in before ==> hash(after[d]) == d)
  }

  /** The files after one copy, completed or not. */
  function AfterCopy(hash: Bytes -> Digest, files: map<Digest, Bytes>, step: Step): map<Digest, Bytes>
  {
    if step.reading.ReadFails? || step.writing.FailsBeforeLink? || hash(step.reading.bytes) in files then files
    else files[hash(step.reading.bytes) := step.reading.bytes]
  }

  function Without(files: map<Digest, Bytes>, paths: seq<Digest>): map<Digest, Bytes>
  {
    map d | d in files && d !in paths :: files[d]
  }

  /** The bytes of a reading land at the path of their own digest, not of the reference's. */
  predicate Misplaces(hash: Bytes -> Digest, files: map<Digest, Bytes>, r: Reference, step: Step)
  {
    && step.reading.Data?
    && !step.writing.FailsBeforeLink?
    && hash(step.reading.bytes) != r.sha256
    && hash(step.reading.bytes) !in files
  }

  /** A copy that completes and returns exactly the reference. */
  predicate Copies(hash: Bytes -> Digest, r: Reference, step: Step)
  {
    && step.reading.Data? && step.writing.Stores?
    && hash(step.reading.bytes) == r.sha256 && |step.reading.bytes| == r.size
  }

  predicate Escapes(step: Step)
  {
    || (step.reading.ReadFails? && step.reading.fault.Uncaught?)
    || (step.reading.Data? && step.writing.FailsBeforeLink? && step.writing.fault.Uncaught?)
    || (step.reading.Data? && step.writing.FailsAfterLink? && step.writing.fault.Uncaught?)
  }

  /** The first reference whose copy does not complete, or the number of references. */
  function FirstFailure(hash: Bytes -> Digest, references: seq<Reference>, steps: seq<Step>): (n: nat)
    requires |steps| == |references|
    ensures n <= |references|
    ensures forall i :: 0 <= i < n ==> Copies(hash, references[i], steps[i])
    ensures n < |references| ==> !Copies(hash, references[n], steps[n])
  {
    if references == [] || !Copies(hash, references[0], steps[0]) then 0
    else
      var rest := FirstFailure(hash, references[1..], steps[1..]);
      assert forall i :: 0 < i <= |references[1..]| ==> references[1..][i - 1] == references[i] && steps[1..][i - 1] == steps[i];
      1 + rest
  }

  class FileStore {
    var files: map<Digest, Bytes>

    /** One write; an existing file at the address is kept. */
    method Put(hash: Bytes -> Digest, data: Bytes, writing: Writing) returns (fault: Option<Fault>)
      modifies this
      ensures files == if writing.FailsBeforeLink? || hash(data) in old(files) then old(files)
                       else old(files)[hash(data) := data]
      ensures fault == if writing.Stores? then None else Some(writing.fault)
    {
      if writing.FailsBeforeLink? {
        return Some(writing.fault);
      }
      if hash(data) !in files {
        files := files[hash(data) := data];
      }
      return if writing.Stores? then None else Some(writing.fault);
    }

    method RemoveCreated(paths: seq<Digest>)
      modifies this
      ensures files == Without(old(files), paths)
    {
      var i := |paths|;
      while i > 0
        invariant 0 <= i <= |paths|
        invariant files == Without(old(files), paths[i..])
      {
        i := i - 1;
        assert paths[i..] == [paths[i]] + paths[i + 1..];
        files := map d | d in files && d != paths[i] :: files[d];
      }
    }

    /** One copy, recorded in `created` whether or not it completes. */
    method CopyOne(hash: Bytes -> Digest, r: Reference, step: Step, created: seq<Digest>)
      returns (done: bool, recorded: seq<Digest>)
      modifies this
      ensures files == AfterCopy(hash, old(files), step)
      ensures recorded == if r.sha256 !in old(files) && r.sha256 in files then created + [r.sha256] else created
      ensures done == Copies(hash, r, step)
    {
      var existed := r.sha256 in files;
      done, recorded := false, created;
      if step.reading.Data? {
        var data := step.reading.bytes;
        var fault := Put(hash, data, step.writing);
        if !existed && r.sha256 in files {
          recorded := created + [r.sha256];
        }
        done := fault.None? && hash(data) == r.sha256 && |data| == r.size;
      }
    }

    /** The copy loop. On success the created paths are exactly the new files and every
        reference is stored. A caught error takes back every created path, and the files are
        then what they were unless the failing copy misplaced its bytes; an uncaught error
        leaves every copy in place. */
    method Transfer(hash: Bytes -> Digest, references: seq<Reference>, steps: seq<Step>) returns (outcome: Outcome)
      requires |steps| == |references|
      modifies this
      ensures
        var n := FirstFailure(hash, references, steps);
        && (n == |references| ==>
              && outcome.Transferred?
              && Without(files, outcome.created) == old(files)
              && Delivered(hash, old(files), references, files))
        && (n < |references| ==>
              var prior := WithReferences(old(files), references[..n], steps[..n]);
              if Escapes(steps[n]) then
                outcome.Escaped? && files == AfterCopy(hash, prior, steps[n])
              else
                && outcome.Refused?
                && (files == old(files) <==> !Misplaces(hash, prior, references[n], steps[n]))
                && (forall d :: d in old(files) ==> d in files && files[d] == old(files)[d]))
    {
      hide WithReferences, Without, Delivered, Escapes, Misplaces;
      ghost var before := files;
      ghost var n := FirstFailure(hash, references, steps);
      var created: seq<Digest> := [];
      var i := 0;
      NothingCopied(before, references[..0], steps[..0]);
      while i < |references|
        invariant 0 <= i <= n
        invariant files == WithReferences(before, references[..i], steps[..i])
        invariant forall d :: d in created <==> d in files && d !in before
      {
        ghost var prior := files;
        var done;
        WithReferencesKeys(before, references[..i], steps[..i]);
        done, created := CopyOne(hash, references[i], steps[i], created);
        if !done {
          if Escapes(steps[i]) {
            return Escaped(created);
          }
          RemoveCreated(created);
          RollbackLeavesMisplaced(hash, before, prior, created, references[i], steps[i]);
          return Refused;
        }
        NextCopied(hash, before, references, steps, i);
        i := i + 1;
      }
      assert references[..i] == references && steps[..i] == steps;
      AllDelivered(hash, before, references, steps, created);
      return Transferred(created);
    }

    /** Transfer, then the commit of the bundle; whatever the commit raises, the created files
        are removed before the error goes on. */
    method TransferAndCommit(hash: Bytes -> Digest, references: seq<Reference>, steps: seq<Step>, commitRaises: bool)
      returns (committed: bool)
      requires |steps| == |references|
      modifies this
      ensures committed <==> FirstFailure(hash, references, steps) == |references| && !commitRaises
      ensures committed ==> Delivered(hash, old(files), references, files)
      ensures
        var n := FirstFailure(hash, references, steps);
        n < |references| && !Escapes(steps[n]) ==>
          (files == old(files) <==> !Misplaces(hash, WithReferences(old(files), references[..n], steps[..n]), references[n], steps[n]))
      ensures FirstFailure(hash, references, steps) == |references| && commitRaises ==> files == old(files)
    {
      var outcome := Transfer(hash, references, steps);
      if !outcome.Transferred? {
        return false;
      }
      if commitRaises {
        RemoveCreated(outcome.created);
        return false;
      }
      return true;
    }
  }

  /** The files after the first copies, all of which completed. */
  function WithReferences(files: map<Digest, Bytes>, references: seq<Reference>, steps: seq<Step>): map<Digest, Bytes>
    requires |steps| == |references|
    requires forall i :: 0 <= i < |steps| ==> steps[i].reading.Data?
  {
    if references == [] then files
    else
      var n := |references| - 1;
      var earlier := WithReferences(files, references[..n], steps[..n]);
      if references[n].sha256 in earlier then earlier else earlier[references[n].sha256 := steps[n].reading.bytes]
  }

  lemma {:induction false} WithReferencesKeys(files: map<Digest, Bytes>, references: seq<Reference>, steps: seq<Step>)
    requires |steps| == |references|
    requires forall i :: 0 <= i < |steps| ==> steps[i].reading.Data?
    ensures WithReferences(files, references, steps).Keys == files.Keys + Addresses(references)
    ensures forall d :: d in files ==> WithReferences(files, references, steps)[d] == files[d]
  {
    if references != [] {
      var n := |references| - 1;
      WithReferencesKeys(files, references[..n], steps[..n]);
      assert references == references[..n] + [references[n]];
      assert Addresses(references) == Addresses(references[..n]) + {references[n].sha256};
    }
  }

  lemma NothingCopied(files: map<Digest, Bytes>, references: seq<Reference>, steps: seq<Step>)
    requires references == [] && steps == []
    ensures WithReferences(files, references, steps) == files
  {}

  lemma NextCopied(hash: Bytes -> Digest, files: map<Digest, Bytes>, references: seq<Reference>, steps: seq<Step>, i: nat)
    requires |steps| == |references| && i < |steps| && Copies(hash, references[i], steps[i])
    requires forall j :: 0 <= j <= i ==> steps[j].reading.Data?
    ensures WithReferences(files, references[..i + 1], steps[..i + 1]) == AfterCopy(hash, WithReferences(files, references[..i], steps[..i]), steps[i])
  {
    assert references[..i + 1][..i] == references[..i] && steps[..i + 1][..i] == steps[..i];
  }

  /** What completed copies added is stored under its own digest. */
  lemma {:induction false} CopiedContent(hash: Bytes -> Digest, files: map<Digest, Bytes>, references: seq<Reference>, steps: seq<Step>)
    requires |steps| == |references|
    requires forall i :: 0 <= i < |steps| ==> steps[i].reading.Data? && Copies(hash, references[i], steps[i])
    ensures forall d :: d in WithReferences(files, references, steps) && d !in files ==> hash(WithReferences(files, references, steps)[d]) == d
  {
    if references != [] {
      CopiedContent(hash, files, references[..|references| - 1], steps[..|references| - 1]);
    }
  }

  lemma AllDelivered(hash: Bytes -> Digest, before: map<Digest, Bytes>, references: seq<Reference>, steps: seq<Step>, created: seq<Digest>)
    requires |steps| == |references|
    requires forall i :: 0 <= i < |steps| ==> steps[i].reading.Data? && Copies(hash, references[i], steps[i])
    ensures
      var after := WithReferences(before, references, steps);
      && Delivered(hash, before, references, after)
      && ((forall d :: d in created <==> d in after && d !in before) ==> Without(after, created) == before)
  {
    WithReferencesKeys(before, references, steps);
    CopiedContent(hash, before, references, steps);
  }

  lemma RollbackLeavesMisplaced(hash: Bytes -> Digest, before: map<Digest, Bytes>, prior: map<Digest, Bytes>,
                                created: seq<Digest>, r: Reference, step: Step)
    requires forall d :: d in before ==> d in prior && prior[d] == before[d]
    requires forall d :: d in created <==>
      (d in prior && d !in before) || (d == r.sha256 && d !in prior && d in AfterCopy(hash, prior, step))
    ensures Without(AfterCopy(hash, prior, step), created) == before <==> !Misplaces(hash, prior, r, step)
    ensures forall d :: d in before ==>
      d in Without(AfterCopy(hash, prior, step), created) && Without(AfterCopy(hash, prior, step), created)[d] == before[d]
  {}

  /** A source store that rehashes what it reads never returns bytes of another digest. */
  ghost predicate RehashingSource(hash: Bytes -> Digest, references: seq<Reference>, steps: seq<Step>)
    requires |steps| == |references|
  {
    forall i :: 0 <= i < |steps| && steps[i].reading.Data? ==>
      hash(steps[i].reading.bytes) == references[i].sha256 && |steps[i].reading.bytes| == references[i].size
  }

  /** From a rehashing source no failing copy misplaces a file, so a caught failure always
      leaves exactly the files that were there before. */
  lemma RehashingSourceNeverMisplaces(hash: Bytes -> Digest, references: seq<Reference>, steps: seq<Step>, files: map<Digest, Bytes>)
    requires |steps| == |references|
    requires RehashingSource(hash, references, steps)
    ensures forall i :: 0 <= i < |steps| ==> !Misplaces(hash, files, references[i], steps[i])
  {}

  /** A source that answers with other bytes leaves a stray file after a refused transfer. */
  lemma ForeignBytesStayBehind(hash: Bytes -> Digest, data: Bytes, r: Reference)
    requires hash(data) != r.sha256
    ensures FirstFailure(hash, [r], [Step(Data(data), Stores)]) == 0
    ensures Misplaces(hash, map[], r, Step(Data(data), Stores))
  {}

  /** The i-th artifact arrives: the source returns its bytes, of the size and digest referenced, and the
      target stores them. */
  predicate Arrives(hash: Bytes -> Digest, r: Reference, step: Step)
  {
    match step
    case Step(Data(bytes), Stores) => hash(bytes) == r.sha256 && |bytes| == r.size
    case _ => false
  }

  /** What a step that does not arrive raises: errors of the two caught kinds and mismatches are taken
      back, anything else leaves the copies in place. */
  predicate RaisesUncaught(step: Step)
  {
    match step
    case Step(ReadFails(fault), _) => fault == Uncaught
    case Step(Data(_), FailsBeforeLink(fault)) => fault == Uncaught
    case Step(Data(_), FailsAfterLink(fault)) => fault == Uncaught
    case Step(Data(_), Stores) => false
  }

  /** A transfer stops at n exactly when the first n artifacts arrive and the next does not. */
  lemma {:induction false} StopsExactly(hash: Bytes -> Digest, references: seq<Reference>, steps: seq<Step>, n: nat)
    requires |steps| == |references|
    ensures FirstFailure(hash, references, steps) == n <==>
      && n <= |references| && (forall i :: 0 <= i < n ==> Arrives(hash, references[i], steps[i]))
      && (n < |references| ==> !Arrives(hash, references[n], steps[n]))
    ensures n < |references| ==> (Escapes(steps[n]) <==> RaisesUncaught(steps[n]))
  {
    var k := FirstFailure(hash, references, steps);
    forall i | 0 <= i < |references|
      ensures Copies(hash, references[i], steps[i]) <==> Arrives(hash, references[i], steps[i])
    {}
    if n <= |references| && (forall i :: 0 <= i < n ==> Arrives(hash, references[i], steps[i]))
       && (n < |references| ==> !Arrives(hash, references[n], steps[n])) {
      assert n <= k && k <= n;
    }
  }
}
