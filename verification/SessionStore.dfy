/** The store: session files, and a cache of write states that spares an append the replay. */
module SessionStore {
  import opened Bytes
  import opened Operations
  import opened Options
  import opened SessionTypes
  import opened SessionState
  import opened SessionHistory
  import opened SessionHead
  import opened SessionCodec
  import opened SessionLog
  import opened SessionReader
  import opened SessionResume

  datatype Cached = Cached(head: HeadRef, committedSize: nat)

  /** How the append to a file goes; a write may stop after any number of bytes. */
  datatype Fault = NoFault | OpenFails | TruncateFails | WriteStops(written: nat) | SyncFails | CloseFails

  /** How the publication of a new file goes: the rename may not happen, or happen and not be synced. */
  datatype PublishFault = Published | NotRenamed | RenamedNotSynced

  /** What the environment decides in one call. */
  datatype Env = Env(cancelled: bool, readable: bool, fault: Fault, publish: PublishFault)

  /** The state a file holds; a file that does not decode holds nothing. */
  function Held(codec: Codec, file: Octets): Stored {
    if Decode(codec, file).Ok? then Decode(codec, file).value.stored else NewStored(Session("", 0))
  }

  /** A file the store can have produced. */
  ghost predicate SoundFile(codec: Codec, id: string, file: Octets) {
    && ValidSessionID(id)
    && Decode(codec, file).Ok?
    && WellFormed(Held(codec, file))
    && Held(codec, file).head.session.id == id
  }

  /** The bytes of a file after an append went as `fault` says, and whether it reported success. */
  function AppendedBytes(file: Octets, committedSize: nat, data: Octets, fault: Fault): (r: (Octets, bool))
    requires committedSize <= |file|
  {
    match fault
    case OpenFails => (file, false)
    case TruncateFails => (file, false)
    case WriteStops(written) => (file[..committedSize] + data[..if written < |data| then written else |data|], false)
    case SyncFails => (file[..committedSize] + data, false)
    case CloseFails => (file[..committedSize] + data, false)
    case NoFault => (file[..committedSize] + data, true)
  }

  lemma SoundIndexed(codec: Codec, id: string, file: Octets)
    requires SoundFile(codec, id, file)
    ensures OperationsIndexed(Held(codec, file).head)
  {
  }

  /** The line an accepted request adds to the log of a session, if it can be encoded. */
  function LineFor(codec: Codec, head: Head, request: Request, at: nat): Option<Octets> {
    EncodeRecord(codec, RecordFor(head, request, at))
  }

  lemma CommittedDecodes(codec: Codec, file: Octets)
    ensures Decode(codec, Committed(file)) == Decode(codec, file)
  {
    CommittedTwice(file);
    assert Committed(Committed(file)) == Committed(file);
    hide Scan;
    hide Replay;
    hide LogLines;
  }

  lemma CommittedFirst(codec: Codec, file: Octets)
    requires Decode(codec, file).Ok?
    ensures Decode(codec, file).value.committedSize == CommittedSize(file)
  {
    hide Scan;
    hide Replay;
    hide LogLines;
    hide CommittedSize;
  }

  /** However the append goes, the file stays sound and holds the old state or the new one. */
  lemma AppendedIsSound(codec: Codec, id: string, file: Octets, request: Request, at: nat, line: Octets, fault: Fault)
    requires RoundTrips(codec) && at != 0 && SoundFile(codec, id, file)
    requires Accepts(Held(codec, file).head, request)
    requires LineFor(codec, Held(codec, file).head, request, at) == Some(line)
    ensures var before, (bytes, ok) := Held(codec, file), AppendedBytes(file, CommittedSize(file), line, fault);
            && SoundFile(codec, id, bytes)
            && (Held(codec, bytes) == before || Held(codec, bytes) == Apply(before, request, at).value)
            && (ok ==> bytes == Committed(file) + line && CommittedSize(bytes) == |bytes|
                       && Held(codec, bytes) == Apply(before, request, at).value)
  {
    hide Decode;
    hide CommittedSize;
    hide WellFormed;
    hide Accepts;
    hide Apply;
    hide RecordFor;
    hide EncodeRecord;
    hide RoundTrips;
    var before := Held(codec, file);
    var kept := Committed(file);
    CommittedFirst(codec, file);
    CommittedDecodes(codec, file);
    CommittedTwice(file);
    ApplyWellFormed(before, request, at);
    match fault
    case OpenFails =>
    case TruncateFails =>
    case WriteStops(written) =>
      AppendAtomic(codec, kept, request, at, line, if written < |line| then written else |line|);
    case _ =>
      assert line[..|line|] == line;
      AppendAtomic(codec, kept, request, at, line, |line|);
      CommittedFirst(codec, kept + line);
  }

  /** What an append of an accepted request makes of the file, and whether it reports success. */
  function Written(codec: Codec, file: Octets, request: Request, at: nat, fault: Fault): (Octets, bool) {
    match LineFor(codec, Held(codec, file).head, request, at)
    case None => (file, false)
    case Some(line) => AppendedBytes(file, CommittedSize(file), line, fault)
  }

  lemma WrittenIsSound(codec: Codec, id: string, file: Octets, request: Request, at: nat, fault: Fault)
    requires RoundTrips(codec) && at != 0 && SoundFile(codec, id, file)
    requires Accepts(Held(codec, file).head, request)
    ensures var before, (bytes, ok) := Held(codec, file), Written(codec, file, request, at, fault);
            && SoundFile(codec, id, bytes)
            && (Held(codec, bytes) == before || Held(codec, bytes) == Apply(before, request, at).value)
            && (ok ==> LineFor(codec, before.head, request, at).Some?
                       && bytes == Committed(file) + LineFor(codec, before.head, request, at).value
                       && CommittedSize(bytes) == |bytes| && Held(codec, bytes) == Apply(before, request, at).value)
  {
    var line := LineFor(codec, Held(codec, file).head, request, at);
    hide SoundFile;
    hide Held;
    hide Accepts;
    hide Apply;
    hide CommittedSize;
    hide LineFor;
    hide AppendedBytes;
    if line.Some? {
      AppendedIsSound(codec, id, file, request, at, line.value, fault);
    }
  }

  /** An append that loses its tail leaves the committed bytes, and the state, as they were. */
  lemma TailLost(codec: Codec, file: Octets, request: Request, at: nat, line: Octets, written: nat)
    requires RoundTrips(codec) && at != 0 && Decode(codec, file).Ok?
    requires Accepts(Held(codec, file).head, request)
             && LineFor(codec, Held(codec, file).head, request, at) == Some(line)
    requires written < |line|
    ensures var torn := Committed(file) + line[..written];
            Held(codec, torn) == Held(codec, file) && Committed(torn) == Committed(file)
  {
    hide Decode;
    hide CommittedSize;
    hide Accepts;
    hide Apply;
    hide RecordFor;
    CommittedDecodes(codec, file);
    CommittedTwice(file);
    AppendAtomic(codec, Committed(file), request, at, line, written);
  }

  /** An append that gets its whole line out is in the file, reported or not. */
  lemma LineKept(codec: Codec, file: Octets, request: Request, at: nat, line: Octets)
    requires RoundTrips(codec) && at != 0 && Decode(codec, file).Ok?
    requires Accepts(Held(codec, file).head, request)
             && LineFor(codec, Held(codec, file).head, request, at) == Some(line)
    ensures Held(codec, Committed(file) + line) == Apply(Held(codec, file), request, at).value
  {
    hide Decode;
    hide CommittedSize;
    hide Accepts;
    hide Apply;
    hide RecordFor;
    CommittedDecodes(codec, file);
    CommittedTwice(file);
    assert line[..|line|] == line;
    AppendAtomic(codec, Committed(file), request, at, line, |line|);
  }

  /** A failed append that did not get all bytes out is forgotten by the next successful one;
      one that did is as good as reported. */
  lemma TornForgotten(codec: Codec, file: Octets, first: Request, at: nat, fault: Fault, second: Request, later: nat)
    requires RoundTrips(codec) && at != 0 && later != 0 && Decode(codec, file).Ok?
    requires Accepts(Held(codec, file).head, first) && LineFor(codec, Held(codec, file).head, first, at).Some?
    ensures var line := LineFor(codec, Held(codec, file).head, first, at).value;
            var (torn, ok) := Written(codec, file, first, at, fault);
            if fault.OpenFails? || fault.TruncateFails? || (fault.WriteStops? && fault.written < |line|) then
              && !ok && Held(codec, torn) == Held(codec, file)
              && Written(codec, torn, second, later, NoFault) ==
                 if LineFor(codec, Held(codec, file).head, second, later).None? then (torn, false)
                 else (Committed(file) + LineFor(codec, Held(codec, file).head, second, later).value, true)
            else
              Held(codec, torn) == Apply(Held(codec, file), first, at).value && (ok <==> fault.NoFault?)
  {
    hide Decode;
    hide CommittedSize;
    hide Accepts;
    hide Apply;
    hide RecordFor;
    hide Held;
    hide LineFor;
    var line := LineFor(codec, Held(codec, file).head, first, at).value;
    if fault.WriteStops? && fault.written < |line| {
      TailLost(codec, file, first, at, line, fault.written);
    } else if !fault.OpenFails? && !fault.TruncateFails? {
      assert line[..|line|] == line;
      LineKept(codec, file, first, at, line);
    }
  }

  /** A cached write state is what the file decodes to. */
  ghost predicate Coherent(codec: Codec, entry: Cached, file: Octets)
    reads entry.head.tables, entry.head.slots
  {
    && Decode(codec, file).Ok?
    && Fits(entry.head) && View(entry.head) == Held(codec, file).head
    && entry.committedSize == CommittedSize(file)
  }

  /** The head after a request that is accepted; a refused one leaves it. */
  function Next(head: Head, request: Request): Head {
    if Accepts(head, request) then After(head, request) else head
  }

  /** A request performed on a coherent cache entry. */
  method PerformCached(codec: Codec, entry: Cached, ghost file: Octets, request: Request) returns (r: Result<HeadRef>)
    requires Coherent(codec, entry, file) && OperationsIndexed(Held(codec, file).head)
    modifies entry.head.tables, entry.head.slots
    ensures r.Ok? <==> Accepts(Held(codec, file).head, request)
    ensures r.Refused? ==> Coherent(codec, entry, file)
    ensures r.Ok? ==> && Fits(r.value) && View(r.value) == Next(Held(codec, file).head, request)
                      && r.value.tables == entry.head.tables
                         && (r.value.slots == entry.head.slots || fresh(r.value.slots))
  {
    hide Accepts;
    hide After;
    hide Decode;
    hide Held;
    hide OperationsIndexed;
    r := Perform(entry.head, request);
  }

  /** The items after a position, at most `limit` of them. */
  datatype Page = Page(items: seq<Item>, nextAfter: nat, more: bool)

  /** What a fork is allowed to be: the parent's state up to the last item of the turn. */
  function ChildOf(codec: Codec, files: map<string, Octets>, id: string, parentID: string, previousTurn: string,
      at: nat): Result<Stored> {
    if ValidSessionID(id) && id != parentID && ValidSessionID(parentID) && parentID in files
    then ForkStored(Held(codec, files[parentID]), Session(id, at), previousTurn)
    else Refused
  }

  class Store {
    const codec: Codec
    var files: map<string, Octets>
    var cache: map<string, Cached>

    /** The session each shared part of a write state belongs to; no part has two. */
    ghost var owner: map<object, string>

    ghost predicate Owns(id: string, head: HeadRef)
      reads this
    {
      head.tables in owner && owner[head.tables] == id && head.slots in owner && owner[head.slots] == id
    }

    /** The store is in order, but for the cached write state of one session. */
    ghost predicate ValidBut(except: string)
      reads this, owner.Keys
    {
      && RoundTrips(codec) && this !in owner
      && (forall id :: id in files ==> SoundFile(codec, id, files[id]))
      && (forall id :: id in cache && id != except ==>
         id in files && Owns(id, cache[id].head) && Coherent(codec, cache[id], files[id]))
    }

    /** Every file is sound, and every cached write state is what its file decodes to. */
    ghost predicate Valid()
      reads this, owner.Keys
    {
      && RoundTrips(codec) && this !in owner
      && (forall id :: id in files ==> SoundFile(codec, id, files[id]))
      && (forall id :: id in cache ==> id in files && Owns(id, cache[id].head) && Coherent(codec, cache[id], files[id]))
    }

    constructor (codec: Codec)
      requires RoundTrips(codec)
      ensures Valid() && files == map[] && cache == map[] && this.codec == codec
    {
      this.codec := codec;
      files := map[];
      cache := map[];
      owner := map[];
    }

    method PutCached(id: string, entry: Cached)
      requires ValidBut(id) && id in files && Owns(id, entry.head) && Coherent(codec, entry, files[id])
      modifies this`cache
      ensures Valid() && cache == old(cache)[id := entry]
    {
      hide SoundFile;
      hide Coherent;
      cache := cache[id := entry];
    }

    /** The parts of a write state that was just built belong to its session. */
    ghost method Adopt(id: string, head: HeadRef)
      requires ValidBut(id) && head.tables !in owner && head.slots !in owner
      modifies this`owner
      ensures ValidBut(id) && Owns(id, head) && owner == old(owner)[head.tables := id][head.slots := id]
    {
      hide SoundFile;
      hide Coherent;
      owner := owner[head.tables := id][head.slots := id];
    }

    /** The array a slice moved to belongs to the session of the slice. */
    ghost method AdoptSlots(id: string, head: HeadRef)
      requires ValidBut(id) && head.tables in owner && owner[head.tables] == id
               && (head.slots in owner ==> owner[head.slots] == id)
      modifies this`owner
      ensures ValidBut(id) && Owns(id, head) && owner == old(owner)[head.slots := id]
    {
      hide SoundFile;
      hide Coherent;
      owner := owner[head.slots := id];
    }

    method EvictCached(id: string)
      requires ValidBut(id)
      modifies this`cache
      ensures Valid() && cache == old(cache) - {id}
    {
      hide SoundFile;
      hide Coherent;
      cache := cache - {id};
    }

    /** Reading never fails on the contents of a file the store produced. */
    method ReadState(id: string, env: Env) returns (r: Result<Read>)
      requires Valid()
      ensures r.Refused? <==> !ValidSessionID(id) || env.cancelled || !env.readable || id !in files
      ensures r.Ok? ==>
                && Fits(r.value.head) && fresh(r.value.head.tables) && fresh(r.value.head.slots)
                && Stored(View(r.value.head), r.value.items) == Held(codec, files[id])
                && Coherent(codec, Cached(r.value.head, r.value.committedSize), files[id])
    {
      if !ValidSessionID(id) || env.cancelled || !env.readable || id !in files {
        return Refused;
      }
      assert SoundFile(codec, id, files[id]);
      CommittedFirst(codec, files[id]);
      hide Decode;
      r := DecodeLog(codec, files[id]);
      if r.Ok? && r.value.head.session.id != id {
        assert false;
        r := Refused;
      }
    }

    /** The write state of a session that is not cached: read, and kept. */
    method ReadThrough(id: string, env: Env) returns (r: Result<Cached>)
      requires Valid() && id !in cache
      modifies this`cache, this`owner
      ensures Valid() && fresh(owner.Keys - old(owner.Keys))
      ensures r.Refused? <==> !ValidSessionID(id) || env.cancelled || !env.readable || id !in files
      ensures cache == if r.Ok? then old(cache)[id := r.value] else old(cache)
    {
      hide Decode;
      hide Coherent;
      hide SoundFile;
      hide View;
      hide Fits;
      hide ValidSessionID;
      var read := ReadState(id, env);
      if read.Refused? {
        return Refused;
      }
      assert ValidBut(id);
      var entry := Cached(read.value.head, read.value.committedSize);
      Adopt(id, entry.head);
      PutCached(id, entry);
      r := Ok(entry);
    }

    method LoadWriteState(id: string, env: Env) returns (r: Result<Cached>)
      requires Valid()
      modifies this`cache, this`owner
      ensures Valid() && fresh(owner.Keys - old(owner.Keys))
      ensures r.Refused? <==>
              !ValidSessionID(id) || env.cancelled || (id !in old(cache) && (!env.readable || id !in files))
      ensures cache == if r.Ok? && id !in old(cache) then old(cache)[id := r.value] else old(cache)
      ensures r.Ok? ==> id in cache && cache[id] == r.value
    {
      hide SoundFile;
      hide Coherent;
      hide ValidSessionID;
      if !ValidSessionID(id) || env.cancelled {
        return Refused;
      }
      if id in cache {
        return Ok(cache[id]);
      }
      r := ReadThrough(id, env);
    }

    /** The shared parts of one session change; nothing else in the store can tell. */
    method MutateParts(id: string, entry: Cached, request: Request, ghost file: Octets) returns (r: Result<HeadRef>)
      requires Valid() && id in cache && entry == cache[id] && id in files && file == files[id]
      modifies entry.head.tables, entry.head.slots
      ensures ValidBut(id)
      ensures r.Ok? <==> Accepts(Held(codec, file).head, request)
      ensures r.Refused? ==> Coherent(codec, entry, file)
      ensures r.Ok? ==> && Fits(r.value) && View(r.value) == Next(Held(codec, file).head, request)
                        && r.value.tables == entry.head.tables
                           && (r.value.slots == entry.head.slots || fresh(r.value.slots))
    {
      hide Accepts;
      hide Next;
      hide Decode;
      hide Held;
      hide SoundFile;
      hide OperationsIndexed;
      hide Coherent;
      hide View;
      hide Fits;
      SoundIndexed(codec, id, file);
      r := PerformCached(codec, entry, file, request);
    }

    /** The head of a cached write state is changed in place, or the request is refused without a trace. */
    method Mutate(id: string, entry: Cached, request: Request, ghost file: Octets) returns (r: Result<HeadRef>)
      requires Valid() && id in cache && entry == cache[id] && id in files && file == files[id]
      modifies entry.head.tables, entry.head.slots, this`owner
      ensures fresh(owner.Keys - old(owner.Keys))
      ensures r.Ok? <==> Accepts(Held(codec, file).head, request)
      ensures r.Refused? ==> Valid()
      ensures r.Ok? ==> && ValidBut(id) && Owns(id, r.value) && Fits(r.value)
                        && View(r.value) == Next(Held(codec, file).head, request)
    {
      hide Accepts;
      hide Next;
      hide Held;
      hide SoundFile;
      hide Coherent;
      hide View;
      hide Fits;
      r := MutateParts(id, entry, request, file);
      if r.Ok? {
        AdoptSlots(id, r.value);
      }
    }

    /** The record goes to the file; only a reported success keeps the head. */
    method WriteRecord(id: string, head: HeadRef, committedSize: nat, record: LogRecord, fault: Fault,
                       ghost request: Request, ghost at: nat, ghost file: Octets) returns (ok: bool)
      requires ValidBut(id) && id in files && file == files[id] && committedSize == CommittedSize(file)
      requires at != 0 && Accepts(Held(codec, file).head, request)
               && record == RecordFor(Held(codec, file).head, request, at)
      requires Owns(id, head) && Fits(head) && View(head) == Next(Held(codec, file).head, request)
      modifies this`files, this`cache
      ensures Valid()
      ensures ok == Written(codec, file, request, at, fault).1
      ensures files == old(files)[id := Written(codec, file, request, at, fault).0]
    {
      hide Written;
      hide SoundFile;
      hide Coherent;
      hide Held;
      hide Accepts;
      hide Next;
      hide View;
      hide Fits;
      hide CommittedSize;
      hide AppendedBytes;
      hide RecordFor;
      hide EncodeRecord;
      RecordWritten(codec, id, file, head, record, request, at, fault);
      var encoded := EncodeRecord(codec, record);
      if encoded.None? {
        assert files == files[id := files[id]];
        EvictCached(id);
        return false;
      }
      var (bytes, done) := AppendedBytes(files[id], committedSize, encoded.value, fault);
      Settle(id, bytes, done, Cached(head, committedSize + |encoded.value|));
      return done;
    }

    /** The file has changed; the cache keeps the new write state if that was reported, and none otherwise. */
    method Settle(id: string, bytes: Octets, done: bool, entry: Cached)
      requires ValidBut(id) && SoundFile(codec, id, bytes) && Owns(id, entry.head)
      requires done ==> Coherent(codec, entry, bytes)
      modifies this`files, this`cache
      ensures Valid() && files == old(files)[id := bytes]
    {
      hide SoundFile;
      hide Coherent;
      ReplaceFile(id, bytes);
      if done {
        PutCached(id, entry);
      } else {
        EvictCached(id);
      }
    }

    /** The record of a request, as the append methods build it from the head they just changed. */
    method BuildRecord(head: HeadRef, request: Request, at: nat, ghost before: Head) returns (record: LogRecord)
      requires head.itemSequence == before.itemSequence + if DataOf(request).Some? then 1 else 0
      ensures record == RecordFor(before, request, at)
    {
      match request
      case SaveOperation(operation) => record := OperationRecord(operation);
      case AddStatus(status) =>
        record := ItemRecord(Item(head.itemSequence, at, StatusItem(status.(operations := []))), status.operations);
      case AddInput(input) => record := ItemRecord(Item(head.itemSequence, at, InputItem(input)), []);
      case AddTurn(turn) => record := ItemRecord(Item(head.itemSequence, at, TurnItem(turn)), []);
      case AddResponse(response) => record := ItemRecord(Item(head.itemSequence, at, ResponseItem(response)), []);
    }

    /** Whether a call gets as far as the rules of the session. */
    ghost predicate Reaches(id: string, env: Env)
      reads this
    {
      ValidSessionID(id) && !env.cancelled && (id in cache || (env.readable && id in files))
    }

    /** An append. What the rules refuse changes nothing; what they accept is written as far as the
        fault lets it, so that the file holds the old state or the new one; success means the new one. */
    method Append(id: string, request: Request, at: nat, env: Env) returns (ok: bool)
      requires Valid() && at != 0
      modifies this`files, this`cache, this`owner, owner.Keys
      ensures Valid() && fresh(owner.Keys - old(owner.Keys))
      ensures var accepted := old(Reaches(id, env)) && Accepts(Held(codec, old(files)[id]).head, request);
              if accepted then
                && ok == Written(codec, old(files)[id], request, at, env.fault).1
                && files == old(files)[id := Written(codec, old(files)[id], request, at, env.fault).0]
              else
                && !ok && files == old(files)
                && forall other :: other in old(cache) ==> other in cache && cache[other] == old(cache)[other]
    {
      hide SoundFile;
      hide Coherent;
      hide Held;
      hide Accepts;
      hide Written;
      hide Next;
      hide View;
      hide Fits;
      hide CommittedSize;
      hide RecordFor;
      hide ValidSessionID;
      if request.SaveOperation? && !ValidOperation(request.operation) {
        assert forall head :: !Accepts(head, request) by { InvalidRefused(request); }
        return false;
      }
      var loaded := LoadWriteState(id, env);
      if loaded.Refused? {
        return false;
      }
      ok := AppendLoaded(id, loaded.value, request, at, env.fault, files[id]);
    }

    /** An append whose write state is in the cache. */
    method AppendLoaded(id: string, entry: Cached, request: Request, at: nat, fault: Fault, ghost file: Octets)
      returns (ok: bool)
      requires Valid() && at != 0 && id in cache && entry == cache[id] && id in files && file == files[id]
      modifies this`files, this`cache, this`owner, entry.head.tables, entry.head.slots
      ensures Valid() && fresh(owner.Keys - old(owner.Keys))
      ensures if Accepts(Held(codec, file).head, request) then
                && ok == Written(codec, file, request, at, fault).1
                && files == old(files)[id := Written(codec, file, request, at, fault).0]
              else
                !ok && files == old(files) && cache == old(cache)
    {
      hide SoundFile;
      hide Coherent;
      hide Held;
      hide Accepts;
      hide Written;
      hide Next;
      hide View;
      hide Fits;
      hide CommittedSize;
      hide RecordFor;
      CoherentSize(codec, entry, file);
      var next := Mutate(id, entry, request, file);
      if next.Refused? {
        return false;
      }
      NextSequence(Held(codec, file).head, request, next.value);
      var record := BuildRecord(next.value, request, at, Held(codec, file).head);
      ok := WriteRecord(id, next.value, entry.committedSize, record, fault, request, at, file);
    }

    /** A new session's log replaces whatever the session held, unless the rename does not happen. */
    method Publish(id: string, head: HeadRef, items: seq<Item>, publish: PublishFault, ghost state: Stored)
      returns (ok: bool)
      requires Valid() && head.session.id == id && head.tables !in owner && head.slots !in owner
      requires Fits(head) && View(head) == state.head && items == state.items && head.session.createdAt != 0
      requires WellFormed(state) && InheritAll(NewStored(head.session), items) == state && NoSnapshots(items)
      requires items != [] ==> Last(items).data.ForkItem?
      modifies this`files, this`cache, this`owner
      ensures Valid() && owner.Keys == old(owner.Keys) + {head.tables, head.slots}
      ensures match InitialLog(codec, head.session, items)
              case None => !ok && files == old(files) && cache == old(cache)
              case Some(log) =>
                && ok == publish.Published?
                && files == (if publish.NotRenamed? then old(files) else old(files)[id := log])
                && Held(codec, log) == state
    {
      hide SoundFile;
      hide Coherent;
      hide Held;
      hide WellFormed;
      hide View;
      hide Fits;
      hide InitialLog;
      hide InheritAll;
      hide NoSnapshots;
      assert ValidBut(id);
      Adopt(id, head);
      var encoded := EncodeInitialLog(codec, head.session, items);
      if encoded.None? {
        return false;
      }
      InitialIsSound(codec, head, items, state);
      if publish.NotRenamed? {
        EvictCached(id);
        return false;
      }
      Settle(id, encoded.value, publish.Published?, Cached(head, |encoded.value|));
      ok := publish.Published?;
    }

    /** Creating a session replaces an existing one of the same ID. */
    method Create(id: string, at: nat, env: Env) returns (ok: bool)
      requires Valid() && at != 0
      modifies this`files, this`cache, this`owner
      ensures Valid() && fresh(owner.Keys - old(owner.Keys))
      ensures if !ValidSessionID(id) || env.cancelled || InitialLog(codec, Session(id, at), []).None? then
                !ok && files == old(files) && cache == old(cache)
              else
                && ok == env.publish.Published?
                && (env.publish.NotRenamed? ==> files == old(files))
                && (!env.publish.NotRenamed? ==> id in files && files == old(files)[id := files[id]]
                                                 && Held(codec, files[id]) == NewStored(Session(id, at)))
    {
      hide SoundFile;
      hide Coherent;
      hide Held;
      hide WellFormed;
      hide InitialLog;
      hide ValidSessionID;
      if !ValidSessionID(id) || env.cancelled {
        return false;
      }
      var head := NewHeadRef(Session(id, at));
      NewWellFormed(Session(id, at));
      ok := Publish(id, head, [], env.publish, NewStored(Session(id, at)));
    }

    /** Forking publishes the child read off the parent's file, and leaves every other session alone. */
    method Fork(id: string, parentID: string, previousTurn: string, at: nat, env: Env) returns (ok: bool)
      requires Valid() && at != 0
      modifies this`files, this`cache, this`owner
      ensures Valid() && fresh(owner.Keys - old(owner.Keys))
      ensures ok ==> id != parentID && parentID in old(files) && ValidSessionID(id) && !env.cancelled
      ensures var child := ChildOf(codec, old(files), id, parentID, previousTurn, at);
              if env.cancelled || !env.readable || child.Refused?
                  || InitialLog(codec, Session(id, at), child.value.items).None? then
                !ok && files == old(files) && cache == old(cache)
              else
                && ok == env.publish.Published?
                && (env.publish.NotRenamed? ==> files == old(files))
                && (!env.publish.NotRenamed? ==> id in files && files == old(files)[id := files[id]]
                                                 && Held(codec, files[id]) == child.value)
    {
      hide SoundFile;
      hide Coherent;
      hide Held;
      hide View;
      hide Fits;
      hide WellFormed;
      hide InitialLog;
      hide InheritAll;
      hide NoSnapshots;
      hide ForkStored;
      hide ValidSessionID;
      if !ValidSessionID(id) || id == parentID {
        return false;
      }
      var read := ReadState(parentID, env);
      if read.Refused? {
        return false;
      }
      ghost var parent := Held(codec, files[parentID]);
      SoundParent(codec, parentID, files[parentID]);
      var built := BuildFork(read.value.items, Session(id, at), previousTurn, parent, parentID);
      if built.Refused? {
        return false;
      }
      var head, items := built.value.head, built.value.items;
      ForkWellFormed(parent, Session(id, at), previousTurn);
      ForkReinherits(parent, Session(id, at), previousTurn);
      HeadSession(head);
      ok := Publish(id, head, items, env.publish, Stored(View(head), items));
    }

    /** One page of the history. */
    method Items(id: string, after: nat, limit: int, env: Env) returns (r: Result<Page>)
      requires Valid()
      ensures r.Refused? <==> limit <= 0 || !ValidSessionID(id) || env.cancelled || !env.readable || id !in files
      ensures r.Ok? ==>
                var items := Held(codec, files[id]).items;
                && r.value.items <= items[if after < |items| then after else |items|..]
                && |r.value.items| <= limit
                && r.value.nextAfter == after + |r.value.items|
                && (r.value.more <==> after + |r.value.items| < |items|)
                && (r.value.more ==> |r.value.items| == limit)
    {
      hide Held;
      hide Coherent;
      hide ValidSessionID;
      if limit <= 0 {
        return Refused;
      }
      var read := ReadState(id, env);
      if read.Refused? {
        return Refused;
      }
      var items := read.value.items;
      SoundNumbered(codec, id, files[id]);
      hide SoundFile;
      var start := if after < |items| then after else |items|;
      var end := if start + limit < |items| then start + limit else |items|;
      var page := items[start..end];
      var nextAfter := after;
      if page != [] {
        nextAfter := page[|page| - 1].sequence;
      }
      r := Ok(Page(page, nextAfter, end < |items|));
    }

    method Resume(id: string, env: Env) returns (r: Result<Resumed>)
      requires Valid()
      ensures r.Refused? <==> !ValidSessionID(id) || env.cancelled || !env.readable || id !in files
      ensures r.Ok? ==> r.value == SessionResume.Resume(Held(codec, files[id]))
    {
      hide Held;
      hide Coherent;
      hide ValidSessionID;
      hide SoundFile;
      var read := ReadState(id, env);
      if read.Refused? {
        return Refused;
      }
      var resumed := ComputeResume(read.value.head.session, read.value.head.slots[..read.value.head.count],
          read.value.items);
      r := Ok(resumed);
    }

    method ReplaceFile(id: string, bytes: Octets)
      requires ValidBut(id) && SoundFile(codec, id, bytes)
      modifies this`files
      ensures ValidBut(id) && files == old(files)[id := bytes]
    {
      hide SoundFile;
      hide Coherent;
      files := files[id := bytes];
    }
  }

  lemma InitialIsSound(codec: Codec, head: HeadRef, items: seq<Item>, state: Stored)
    requires RoundTrips(codec) && InitialLog(codec, head.session, items).Some?
    requires Fits(head) && View(head) == state.head && items == state.items && head.session.createdAt != 0
    requires WellFormed(state) && InheritAll(NewStored(head.session), items) == state && NoSnapshots(items)
    requires items != [] ==> Last(items).data.ForkItem?
    ensures var log := InitialLog(codec, head.session, items).value;
            && SoundFile(codec, head.session.id, log) && Held(codec, log) == state
            && Coherent(codec, Cached(head, |log|), log)
  {
    hide WellFormed;
    hide InheritAll;
    hide NoSnapshots;
    hide Decode;
    hide CommittedSize;
    InitialDecodes(codec, head.session, items);
    var log := InitialLog(codec, head.session, items).value;
    CommittedFirst(codec, log);
    InitialNamed(codec, head.session, items);
  }

  lemma {:induction false} InitialNamed(codec: Codec, session: Session, items: seq<Item>)
    requires InitialLog(codec, session, items).Some?
    ensures ValidSessionID(session.id)
  {
    if items != [] {
      InitialNamed(codec, session, Front(items));
    }
  }

  lemma SoundParent(codec: Codec, id: string, file: Octets)
    requires SoundFile(codec, id, file)
    ensures WellFormed(Held(codec, file)) && Held(codec, file).head.session.id == id
  {
  }

  lemma HeadSession(head: HeadRef)
    requires Fits(head)
    ensures View(head).session == head.session
  {
  }

  lemma SoundNumbered(codec: Codec, id: string, file: Octets)
    requires SoundFile(codec, id, file)
    ensures forall i :: 0 <= i < |Held(codec, file).items| ==> Held(codec, file).items[i].sequence == i + 1
  {
    var items := Held(codec, file).items;
    forall i | 0 <= i < |items|
      ensures items[i].sequence == i + 1
    {
      LawfulAt(items, i);
    }
  }

  lemma InvalidRefused(request: Request)
    requires request.SaveOperation? && !ValidOperation(request.operation)
    ensures forall head :: !Accepts(head, request)
  {
  }

  lemma CoherentSize(codec: Codec, entry: Cached, file: Octets)
    requires Coherent(codec, entry, file)
    ensures entry.committedSize == CommittedSize(file)
  {
  }

  lemma NextSequence(before: Head, request: Request, after: HeadRef)
    requires Fits(after) && Accepts(before, request) && View(after) == Next(before, request)
    ensures after.itemSequence == before.itemSequence + if DataOf(request).Some? then 1 else 0
  {
    CountAfter(before, request);
  }

  lemma RecordWritten(codec: Codec, id: string, file: Octets, head: HeadRef, record: LogRecord, request: Request,
      at: nat, fault: Fault)
    requires RoundTrips(codec) && at != 0 && SoundFile(codec, id, file) && Accepts(Held(codec, file).head, request)
    requires record == RecordFor(Held(codec, file).head, request, at)
    requires Fits(head) && View(head) == Next(Held(codec, file).head, request)
    ensures var encoded, written := EncodeRecord(codec, record), Written(codec, file, request, at, fault);
            && written == (if encoded.None? then (file, false)
               else AppendedBytes(file, CommittedSize(file), encoded.value, fault))
            && SoundFile(codec, id, written.0)
            && (written.1 ==> Coherent(codec, Cached(head, CommittedSize(file) + |encoded.value|), written.0))
  {
    hide SoundFile;
    hide Held;
    hide Accepts;
    hide Next;
    hide Apply;
    hide CommittedSize;
    hide AppendedBytes;
    hide RecordFor;
    hide EncodeRecord;
    hide View;
    hide Coherent;
    WrittenIsSound(codec, id, file, request, at, fault);
    var (bytes, done) := Written(codec, file, request, at, fault);
    if done {
      var line := EncodeRecord(codec, record).value;
      assert |bytes| == CommittedSize(file) + |line|;
      WrittenCoherent(codec, id, Cached(head, CommittedSize(file) + |line|), request, at, file, bytes);
    }
  }

  lemma WrittenCoherent(codec: Codec, id: string, entry: Cached, request: Request, at: nat, file: Octets, bytes: Octets)
    requires SoundFile(codec, id, bytes) && Fits(entry.head)
             && View(entry.head) == Next(Held(codec, file).head, request)
    requires Accepts(Held(codec, file).head, request)
             && Held(codec, bytes) == Apply(Held(codec, file), request, at).value
    requires entry.committedSize == CommittedSize(bytes)
    ensures Coherent(codec, entry, bytes)
  {
    hide Held;
    hide Decode;
    hide Accepts;
    hide After;
    hide CommittedSize;
    hide View;
    hide WellFormed;
  }
}
