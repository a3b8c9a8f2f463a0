/**
 * WaveConnector: the facade between the client and the wave backend. It
 * remembers whether it is connected, which wave is open and which version of
 * each wave was last seen; every call reads the backend's current answers,
 * given as a `Backend` value, and the requests it makes of the backend are
 * recorded in a ghost log.
 */
module Connector {
  import opened Base
  import opened WaveData
  import opened Container
  import opened Cursor

  /** The connector's own fields as one value. */
  datatype ConnState = ConnState(connected: bool, openWave: Option<WaveId>, lastSeen: map<WaveId, HashedVersion>)

  /** The backend's answers cover the open wave (in the client the open wave is a live view of the backend's wave). */
  predicate Tracks(c: ConnState, b: Backend)
  {
    c.openWave.Some? ==> c.openWave.value in b.waves
  }

  /** The checks a server operation on the open wave makes, in order: first the connection, then an open wave. */
  function Guard(connected: bool, waveOpen: bool): Outcome
  {
    if !connected then Fail(ServerNotConnected)
    else if !waveOpen then Fail(NoWaveOpen)
    else Pass
  }

  /** Not being connected wins over having no wave open; the guard passes exactly when both hold. */
  lemma GuardOrder(connected: bool, waveOpen: bool)
    ensures !connected ==> Guard(connected, waveOpen) == Fail(ServerNotConnected)
    ensures connected && !waveOpen ==> Guard(connected, waveOpen) == Fail(NoWaveOpen)
    ensures Guard(connected, waveOpen) == Pass <==> connected && waveOpen
  {
  }

  /** updateLastSeenVersion: the open wave's current version becomes its last seen one. */
  function SeenOpen(c: ConnState, b: Backend): map<WaveId, HashedVersion>
    requires Tracks(c, b)
  {
    if c.openWave.Some? then c.lastSeen[c.openWave.value := b.waves[c.openWave.value].version] else c.lastSeen
  }

  /** Every index entry has a wave view; otherwise getInbox dereferences null. */
  predicate AllKnown(b: Backend)
  {
    forall i :: 0 <= i < |b.index| ==> b.index[i].waveId in b.waves
  }

  /** A wave is read when its current version equals the version last seen (never seen means unread). */
  predicate IsRead(seen: map<WaveId, HashedVersion>, b: Backend, w: WaveId)
    requires w in b.waves
  {
    w in seen && seen[w] == b.waves[w].version
  }

  /** getInbox's element for one index entry. */
  function InboxEntry(b: Backend, seen: map<WaveId, HashedVersion>, e: IndexEntry): InboxElement
    requires e.waveId in b.waves
  {
    InboxElement(e.waveId.id, e.digest, IsRead(seen, b, e.waveId))
  }

  /** getInbox's list: one element per index entry, in index order. */
  function InboxOf(b: Backend, seen: map<WaveId, HashedVersion>): seq<InboxElement>
    requires AllKnown(b)
  {
    seq(|b.index|, i requires 0 <= i < |b.index| => InboxEntry(b, seen, b.index[i]))
  }

  /** readAllWaves over the given entries: each wave with a conversation root gets its current version. */
  function Marked(seen: map<WaveId, HashedVersion>, b: Backend, entries: seq<IndexEntry>): map<WaveId, HashedVersion>
    decreases |entries|
  {
    if entries == [] then seen
    else
      var m := Marked(seen, b, entries[..|entries| - 1]);
      var w := entries[|entries| - 1].waveId;
      if w in b.waves && b.waves[w].hasRoot then m[w := b.waves[w].version] else m
  }

  /** The addresses of the open wave's participants, or none when no wave is open (getWaveParticipants). */
  function ParticipantsOf(c: ConnState, b: Backend): (r: seq<string>)
    requires Tracks(c, b)
  {
    if c.openWave.None? then []
    else
      var ps := b.waves[c.openWave.value].participants;
      seq(|ps|, i requires 0 <= i < |ps| => ps[i].address)
  }

  /** appendToWave's document operation: skip the existing content, then a line by `user` holding `text`. */
  function AppendOp(docSize: nat, user: string, text: string): seq<DocOpComponent>
  {
    (if docSize > 0 then [Retain(docSize)] else [])
      + [InsertStart(LINE, map[LINE_AUTHOR := user]), InsertEnd, InsertCharacters(text)]
  }

  /** What an operation inserts, as the events a document cursor later reads. */
  function Inserted(op: seq<DocOpComponent>): seq<DocEvent>
    decreases |op|
  {
    if op == [] then []
    else
      var rest := Inserted(op[1..]);
      match op[0]
      case Retain(_) => rest
      case InsertStart(kind, attrs) => [ElementStart(kind, attrs)] + rest
      case InsertEnd => [ElementEnd] + rest
      case InsertCharacters(s) => [Characters(s)] + rest
  }

  /** The operation retains only when the document is not empty, and always ends with the new line. */
  lemma AppendOpShape(docSize: nat, user: string, text: string)
    ensures var op := AppendOp(docSize, user, text);
      && |op| == (if docSize > 0 then 4 else 3)
      && (op[0].Retain? <==> docSize > 0)
      && (docSize > 0 ==> op[0] == Retain(docSize))
      && op[|op| - 3..] == [InsertStart(LINE, map[LINE_AUTHOR := user]), InsertEnd, InsertCharacters(text)]
  {
  }

  /**
   * What appendToWave inserts reads back, through getWaveBody's cursor, as
   * exactly one wavelet by the user with the appended text.
   */
  lemma AppendedLineReadsBack(docSize: nat, user: string, text: string, t: Traversal)
    requires t.container == Empty
    ensures Inserted(AppendOp(docSize, user, text)) == LineEvents(CWavelet(user, text))
    ensures Run(t, Inserted(AppendOp(docSize, user, text))) == Success(Traversal(Empty, t.body + [Some(CWavelet(user, text))]))
  {
    var w := CWavelet(user, text);
    var tail := [InsertStart(LINE, map[LINE_AUTHOR := user]), InsertEnd, InsertCharacters(text)];
    assert Inserted(tail) == LineEvents(w) by {
      assert tail[1..] == [InsertEnd, InsertCharacters(text)];
      assert tail[1..][1..] == [InsertCharacters(text)];
      assert tail[1..][1..][1..] == [];
      assert Inserted([InsertCharacters(text)]) == [Characters(text)];
      assert Inserted(tail[1..]) == [ElementEnd, Characters(text)];
    }
    if docSize > 0 {
      assert AppendOp(docSize, user, text)[1..] == tail;
    } else {
      assert AppendOp(docSize, user, text) == tail;
    }
    LinesReadBack(t, [w]);
    assert [w][..0] == [];
    assert LinesDocument([w]) == [] + LineEvents(w);
    assert [] + LineEvents(w) == LineEvents(w);
    assert Present([w]) == [Some(w)];
  }

  /** The inbox has one row per index entry, in order, read exactly when the version is the one last seen. */
  lemma InboxRows(b: Backend, seen: map<WaveId, HashedVersion>)
    requires AllKnown(b)
    ensures |InboxOf(b, seen)| == |b.index|
    ensures forall i :: 0 <= i < |b.index| ==>
      && InboxOf(b, seen)[i].id == b.index[i].waveId.id
      && InboxOf(b, seen)[i].digest == b.index[i].digest
      && (InboxOf(b, seen)[i].read <==> b.index[i].waveId in seen && seen[b.index[i].waveId] == b.waves[b.index[i].waveId].version)
  {
  }

  /**
   * After readAllWaves every listed wave with a conversation root is read; every other wave keeps
   * its last-seen entry, and only listed waves with a conversation root gain one.
   */
  lemma {:induction false} MarkedRecordsAll(seen: map<WaveId, HashedVersion>, b: Backend, entries: seq<IndexEntry>)
    ensures forall i :: 0 <= i < |entries| && entries[i].waveId in b.waves && b.waves[entries[i].waveId].hasRoot ==>
      IsRead(Marked(seen, b, entries), b, entries[i].waveId)
    ensures forall w :: w in seen && !(w in b.waves && b.waves[w].hasRoot && exists i :: 0 <= i < |entries| && entries[i].waveId == w) ==>
      w in Marked(seen, b, entries) && Marked(seen, b, entries)[w] == seen[w]
    ensures forall w :: w in Marked(seen, b, entries) && w !in seen ==>
      w in b.waves && b.waves[w].hasRoot && exists i :: 0 <= i < |entries| && entries[i].waveId == w
    decreases |entries|
  {
    if entries != [] {
      var init := entries[..|entries| - 1];
      MarkedRecordsAll(seen, b, init);
      assert forall i :: 0 <= i < |init| ==> init[i] == entries[i];
    }
  }

  /** Recording the open wave's current version keeps every wave that was read, read. */
  lemma SeenOpenKeepsRead(c: ConnState, b: Backend, w: WaveId)
    requires Tracks(c, b) && w in b.waves
    requires IsRead(c.lastSeen, b, w)
    ensures IsRead(SeenOpen(c, b), b, w)
  {
  }

  /** After "mark all waves read", the next inbox shows every wave with a conversation root as read. */
  lemma ReadAllThenInboxRead(c: ConnState, b: Backend, i: int)
    requires Tracks(c, b) && AllKnown(b)
    requires 0 <= i < |b.index| && b.waves[b.index[i].waveId].hasRoot
    ensures var c' := c.(lastSeen := Marked(c.lastSeen, b, b.index));
      InboxOf(b, SeenOpen(c', b))[i].read
  {
    MarkedRecordsAll(c.lastSeen, b, b.index);
    SeenOpenKeepsRead(c.(lastSeen := Marked(c.lastSeen, b, b.index)), b, b.index[i].waveId);
  }

  /** The open wave's own rows in the inbox getInbox returns are read. */
  lemma OpenWaveShownRead(c: ConnState, b: Backend, i: int)
    requires Tracks(c, b) && AllKnown(b) && c.openWave.Some?
    requires 0 <= i < |b.index| && b.index[i].waveId == c.openWave.value
    ensures InboxOf(b, SeenOpen(c, b))[i].read
  {
  }

  class WaveConnector {
    var connected: bool
    var openWave: Option<WaveId>
    var lastSeen: map<WaveId, HashedVersion>
    /** The requests made of the backend, oldest first. */
    ghost var requests: seq<Request>

    function State(): ConnState
      reads this
    {
      ConnState(connected, openWave, lastSeen)
    }

    /** A wave can only have been opened over a connection. */
    predicate Valid()
      reads this
    {
      openWave.Some? ==> connected
    }

    /** isConnected: a backend exists; a connector without one has no wave open. */
    predicate IsConnected()
      reads this
      ensures Valid() && !IsConnected() ==> openWave.None?
    {
      connected
    }

    /** isWaveOpen: some wave is open, which in a valid connector implies a connection. */
    predicate IsWaveOpen()
      reads this
      ensures Valid() && IsWaveOpen() ==> IsConnected()
    {
      openWave.Some?
    }

    constructor ()
      ensures Valid() && State() == ConnState(false, None, map[]) && requests == []
    {
      connected := false;
      openWave := None;
      lastSeen := map[];
      requests := [];
    }

    /** connect, once the port has been parsed and the backend created. */
    method Connect()
      modifies this
      ensures Valid() && State() == old(State()).(connected := true) && requests == old(requests)
    {
      connected := true;
    }

    method CreateWave() returns (r: Outcome)
      requires Valid()
      modifies this
      ensures Valid() && State() == old(State())
      ensures r == (if connected then Pass else Fail(ServerNotConnected))
      ensures requests == old(requests) + (if connected then [CreateNewWave] else [])
    {
      if connected {
        requests := requests + [CreateNewWave];
        r := Pass;
      } else {
        r := Fail(ServerNotConnected);
      }
    }

    method OpenWave(b: Backend, entry: int) returns (r: Outcome)
      requires Valid()
      modifies this
      ensures Valid() && connected == old(connected) && lastSeen == old(lastSeen)
      ensures !old(connected) ==> r == Fail(ServerNotConnected) && openWave == old(openWave) && requests == old(requests)
      ensures old(connected) && !(0 <= entry < |b.index|) ==>
        r == Fail(IndexOutOfBounds) && openWave == old(openWave) && requests == old(requests)
      ensures old(connected) && 0 <= entry < |b.index| && b.index[entry].waveId !in b.waves ==>
        r == Fail(NullPointer) && openWave == None && requests == old(requests)
      ensures old(connected) && 0 <= entry < |b.index| && b.index[entry].waveId in b.waves ==>
        var w := b.index[entry].waveId;
        && r == Pass && openWave == Some(w) && IsWaveOpen() && Tracks(State(), b)
        && requests == old(requests) + (if b.waves[w].hasRoot then [] else [CreateConversationRoot(w)])
    {
      if !connected {
        return Fail(ServerNotConnected);
      }
      if entry >= |b.index| || entry < 0 {
        return Fail(IndexOutOfBounds);
      }
      var w := b.index[entry].waveId;
      if w !in b.waves {
        openWave := None;
        return Fail(NullPointer);
      }
      openWave := Some(w);
      if !b.waves[w].hasRoot {
        requests := requests + [CreateConversationRoot(w)];
      }
      r := Pass;
    }

    method CloseOpenWave()
      requires Valid()
      modifies this
      ensures Valid() && State() == old(State()).(openWave := None) && requests == old(requests)
      ensures !IsWaveOpen()
    {
      openWave := None;
    }

    method ReadAllWaves(b: Backend) returns (r: Outcome)
      requires Valid()
      modifies this
      ensures Valid() && connected == old(connected) && openWave == old(openWave) && requests == old(requests)
      ensures !old(connected) ==> r == Fail(NullPointer) && lastSeen == old(lastSeen)
      ensures old(connected) ==> r == Pass && lastSeen == Marked(old(lastSeen), b, b.index)
    {
      if !connected {
        return Fail(NullPointer);
      }
      var i := 0;
      while i < |b.index|
        invariant 0 <= i <= |b.index|
        invariant connected == old(connected) && openWave == old(openWave) && requests == old(requests)
        invariant lastSeen == Marked(old(lastSeen), b, b.index[..i])
      {
        assert b.index[..i + 1][..i] == b.index[..i];
        var w := b.index[i].waveId;
        if w in b.waves && b.waves[w].hasRoot {
          lastSeen := lastSeen[w := b.waves[w].version];
        }
        i := i + 1;
      }
      assert b.index[..i] == b.index;
      r := Pass;
    }

    method UpdateLastSeenVersion(b: Backend)
      requires Valid() && Tracks(State(), b)
      modifies this
      ensures Valid() && State() == old(State()).(lastSeen := SeenOpen(old(State()), b)) && requests == old(requests)
    {
      if openWave.Some? {
        lastSeen := lastSeen[openWave.value := b.waves[openWave.value].version];
      }
    }

    method GetInbox(b: Backend) returns (r: Result<seq<InboxElement>>)
      requires Valid() && Tracks(State(), b)
      modifies this
      ensures Valid() && connected == old(connected) && openWave == old(openWave) && requests == old(requests)
      ensures !old(connected) ==> r == Failure(ServerNotConnected) && lastSeen == old(lastSeen)
      ensures old(connected) ==> lastSeen == SeenOpen(old(State()), b)
      ensures old(connected) ==> r == if AllKnown(b) then Success(InboxOf(b, lastSeen)) else Failure(NullPointer)
    {
      if !connected {
        return Failure(ServerNotConnected);
      }
      UpdateLastSeenVersion(b);
      var inboxList: seq<InboxElement> := [];
      var i := 0;
      while i < |b.index|
        invariant 0 <= i <= |b.index|
        invariant forall k :: 0 <= k < i ==> b.index[k].waveId in b.waves
        invariant |inboxList| == i
        invariant forall k :: 0 <= k < i ==> inboxList[k] == InboxEntry(b, lastSeen, b.index[k])
      {
        var e := b.index[i];
        if e.waveId !in b.waves {
          assert !AllKnown(b);
          return Failure(NullPointer);
        }
        var version := b.waves[e.waveId].version;
        if !(e.waveId in lastSeen && version == lastSeen[e.waveId]) {
          inboxList := inboxList + [InboxElement(e.waveId.id, e.digest, false)];
        } else {
          inboxList := inboxList + [InboxElement(e.waveId.id, e.digest, true)];
        }
        i := i + 1;
      }
      assert inboxList == InboxOf(b, lastSeen);
      r := Success(inboxList);
    }

    method GetWaveParticipants(b: Backend) returns (r: Result<seq<string>>)
      requires Tracks(State(), b)
      ensures !connected ==> r == Failure(ServerNotConnected)
      ensures connected ==> r == Success(ParticipantsOf(State(), b))
      ensures connected && openWave.None? ==> r == Success([])
      ensures connected && openWave.Some? ==>
        var ps := b.waves[openWave.value].participants;
        r.Success? && |r.value| == |ps| && forall i :: 0 <= i < |ps| ==> r.value[i] == ps[i].address
    {
      if !connected {
        return Failure(ServerNotConnected);
      }
      if openWave.None? {
        return Success([]);
      }
      var ps := b.waves[openWave.value].participants;
      var participantsAddress: seq<string> := [];
      var i := 0;
      while i < |ps|
        invariant 0 <= i <= |ps|
        invariant |participantsAddress| == i
        invariant forall k :: 0 <= k < i ==> participantsAddress[k] == ps[k].address
      {
        participantsAddress := participantsAddress + [ps[i].address];
        i := i + 1;
      }
      assert participantsAddress == ParticipantsOf(State(), b);
      r := Success(participantsAddress);
    }

    method GetWaveBody(b: Backend) returns (r: Result<seq<Option<CWavelet>>>)
      requires Valid() && Tracks(State(), b)
      modifies this
      ensures Valid() && connected == old(connected) && openWave == old(openWave) && requests == old(requests)
      ensures !old(connected) ==> r == Failure(ServerNotConnected) && lastSeen == old(lastSeen)
      ensures old(connected) && old(openWave).None? ==> r == Success([]) && lastSeen == old(lastSeen)
      ensures old(connected) && old(openWave).Some? ==>
        && r == WaveBody(b.waves[old(openWave).value].documents)
        && lastSeen == (if r.Success? then SeenOpen(old(State()), b) else old(lastSeen))
    {
      if !connected {
        return Failure(ServerNotConnected);
      }
      if openWave.None? {
        return Success([]);
      }
      r := ReadDocuments(b.waves[openWave.value].documents);
      if r.Success? {
        UpdateLastSeenVersion(b);
      }
    }

    method RemoveParticipant(b: Backend, name: string) returns (r: Outcome)
      requires Valid() && Tracks(State(), b)
      modifies this
      ensures Valid() && State() == old(State())
      ensures Guard(connected, openWave.Some?).Fail? ==> r == Guard(connected, openWave.Some?) && requests == old(requests)
      ensures Guard(connected, openWave.Some?) == Pass ==>
        var w := openWave.value;
        var p := ParticipantId(name);
        if p in b.waves[w].participants then r == Pass && requests == old(requests) + [SendOperation(w, WaveletOp.RemoveParticipant(p))]
        else r == Fail(ParticipantManagement) && requests == old(requests)
    {
      if !connected {
        return Fail(ServerNotConnected);
      }
      if openWave.None? {
        return Fail(NoWaveOpen);
      }
      var removeId := ParticipantId(name);
      var w := openWave.value;
      if removeId in b.waves[w].participants {
        requests := requests + [SendOperation(w, WaveletOp.RemoveParticipant(removeId))];
        r := Pass;
      } else {
        r := Fail(ParticipantManagement);
      }
    }

    method AddParticipant(b: Backend, name: string) returns (r: Outcome)
      requires Valid() && Tracks(State(), b)
      modifies this
      ensures Valid() && State() == old(State())
      ensures Guard(connected, openWave.Some?).Fail? ==> r == Guard(connected, openWave.Some?) && requests == old(requests)
      ensures Guard(connected, openWave.Some?) == Pass ==>
        var w := openWave.value;
        var p := ParticipantId(name);
        if p !in b.waves[w].participants then r == Pass && requests == old(requests) + [SendOperation(w, WaveletOp.AddParticipant(p))]
        else r == Fail(ParticipantManagement) && requests == old(requests)
    {
      if !connected {
        return Fail(ServerNotConnected);
      }
      if openWave.None? {
        return Fail(NoWaveOpen);
      }
      var addId := ParticipantId(name);
      var w := openWave.value;
      if addId !in b.waves[w].participants {
        requests := requests + [SendOperation(w, WaveletOp.AddParticipant(addId))];
        r := Pass;
      } else {
        r := Fail(ParticipantManagement);
      }
    }

    method RemoveSelfFromWave(b: Backend) returns (r: Outcome)
      requires Valid() && Tracks(State(), b)
      modifies this
      ensures Valid() && State() == old(State())
      ensures r == Guard(connected, openWave.Some?)
      ensures r.Fail? ==> requests == old(requests)
      ensures r == Pass ==>
        var w := openWave.value;
        requests == old(requests) + (if b.user in b.waves[w].participants then [SendOperation(w, WaveletOp.RemoveParticipant(b.user))] else [])
    {
      if !connected {
        return Fail(ServerNotConnected);
      }
      if openWave.None? {
        return Fail(NoWaveOpen);
      }
      // A ParticipantManagementException from removing oneself is swallowed.
      var _ := RemoveParticipant(b, b.user.address);
      r := Pass;
    }

    method AppendToWave(b: Backend, text: string) returns (r: Outcome)
      requires Valid() && Tracks(State(), b)
      modifies this
      ensures Valid() && State() == old(State())
      ensures r == Guard(connected, openWave.Some?)
      ensures r.Fail? ==> requests == old(requests)
      ensures r == Pass ==>
        var w := openWave.value;
        requests == old(requests)
          + [SendOperation(w, DocumentOperation(MAIN_DOCUMENT_ID, AppendOp(b.waves[w].mainDocSize, b.user.address, text)))]
    {
      if !connected {
        return Fail(ServerNotConnected);
      }
      if openWave.None? {
        return Fail(NoWaveOpen);
      }
      var w := openWave.value;
      var docSize := b.waves[w].mainDocSize;
      var docOp: seq<DocOpComponent> := [];
      if docSize > 0 {
        docOp := docOp + [Retain(docSize)];
      }
      docOp := docOp + [InsertStart(LINE, map[LINE_AUTHOR := b.user.address])];
      docOp := docOp + [InsertEnd];
      docOp := docOp + [InsertCharacters(text)];
      assert docOp == AppendOp(docSize, b.user.address, text);
      requests := requests + [SendOperation(w, DocumentOperation(MAIN_DOCUMENT_ID, docOp))];
      r := Pass;
    }

    method GetOpenWaveId() returns (r: Result<WaveId>)
      ensures r.Failure? <==> Guard(connected, openWave.Some?).Fail?
      ensures r.Failure? ==> Fail(r.error) == Guard(connected, openWave.Some?)
      ensures r.Success? ==> openWave == Some(r.value)
    {
      if !connected {
        return Failure(ServerNotConnected);
      }
      if openWave.None? {
        return Failure(NoWaveOpen);
      }
      r := Success(openWave.value);
    }

    method GetOpenWaveIdString() returns (r: Result<string>)
      ensures r.Failure? <==> Guard(connected, openWave.Some?).Fail?
      ensures r.Failure? ==> Fail(r.error) == Guard(connected, openWave.Some?)
      ensures r.Success? ==> openWave.Some? && r.value == openWave.value.id
    {
      var id := GetOpenWaveId();
      match id
      case Failure(err) => r := Failure(err);
      case Success(w) => r := Success(w.id);
    }

    /** The backend reports that `who` left a wavelet of wave `waveletWave`. */
    method ParticipantRemoved(b: Backend, waveletWave: WaveId, who: ParticipantId)
      requires Valid()
      modifies this
      ensures Valid() && connected == old(connected) && lastSeen == old(lastSeen) && requests == old(requests)
      ensures openWave ==
        if old(openWave).Some? && who == b.user && waveletWave == old(openWave).value then None else old(openWave)
    {
      if openWave.Some? && who == b.user {
        if waveletWave == openWave.value {
          openWave := None;
        }
      }
    }
  }
}
