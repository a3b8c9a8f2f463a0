/**
 * ConsoleClient: the window's display strings and the guards of its buttons.
 * The Swing widgets are reduced to the values they show: the current user's
 * label, the inbox list, the participants label and the wave list.
 */
module Console {
  import opened Base
  import opened WaveData
  import opened Cursor
  import opened Connector

  /** An inbox row: "[NEW] " when the wave is unread, then "(id) " and the digest. */
  function InboxRow(e: InboxElement): string
  {
    (if !e.read then "[NEW] " else "") + "(" + e.id + ") " + e.digest
  }

  /** The inbox list model: one row per element, in order. */
  function InboxModel(inbox: seq<InboxElement>): seq<string>
  {
    seq(|inbox|, i requires 0 <= i < |inbox| => InboxRow(inbox[i]))
  }

  /** The participants label: every address followed by ", ". */
  function ParticipantsLabel(ps: seq<string>): string
    decreases |ps|
  {
    if ps == [] then "" else ParticipantsLabel(ps[..|ps| - 1]) + ps[|ps| - 1] + ", "
  }

  /** A wave list line. */
  function WaveLine(w: CWavelet): string
  {
    w.author + " SAYS: " + w.text
  }

  /** The wave list model; a null wavelet in the body makes updateWave dereference null. */
  function WaveLines(body: seq<Option<CWavelet>>): Result<seq<string>>
    decreases |body|
  {
    if body == [] then Success([])
    else
      match WaveLines(body[..|body| - 1])
      case Failure(err) => Failure(err)
      case Success(lines) =>
        match body[|body| - 1]
        case None => Failure(NullPointer)
        case Some(w) => Success(lines + [WaveLine(w)])
  }

  /** The row starts with the "[NEW] " marker exactly when the wave is unread, and the rest is "(id) digest". */
  lemma InboxRowMarksUnread(e: InboxElement)
    ensures |InboxRow(e)| >= 6 && InboxRow(e)[..6] == "[NEW] " <==> !e.read
    ensures InboxRow(e)[(if e.read then 0 else 6)..] == "(" + e.id + ") " + e.digest
  {
    if e.read {
      assert InboxRow(e)[0] == '(';
    } else {
      assert InboxRow(e) == "[NEW] " + ("(" + e.id + ") " + e.digest);
    }
  }

  /** The label of a concatenation is the concatenation of the labels. */
  lemma {:induction false} ParticipantsLabelAppend(ps: seq<string>, qs: seq<string>)
    ensures ParticipantsLabel(ps + qs) == ParticipantsLabel(ps) + ParticipantsLabel(qs)
    decreases |qs|
  {
    if qs == [] {
      assert ps + qs == ps;
    } else {
      var init := qs[..|qs| - 1];
      assert (ps + qs)[..|ps + qs| - 1] == ps + init;
      ParticipantsLabelAppend(ps, init);
    }
  }

  /** No participants give the empty label; otherwise the label starts with the first address and ends with the separator. */
  lemma ParticipantsLabelShape(ps: seq<string>)
    ensures ps == [] <==> ParticipantsLabel(ps) == ""
    ensures ps != [] ==> |ParticipantsLabel(ps)| >= |ps[0]| + 2
    ensures ps != [] ==> ParticipantsLabel(ps)[..|ps[0]| + 2] == ps[0] + ", "
    ensures ps != [] ==> ParticipantsLabel(ps)[|ParticipantsLabel(ps)| - 2..] == ", "
  {
    if ps != [] {
      assert ps == [ps[0]] + ps[1..];
      ParticipantsLabelAppend([ps[0]], ps[1..]);
      assert [ps[0]][..0] == [];
      assert ParticipantsLabel([ps[0]]) == "" + ps[0] + ", ";
    }
  }

  /** updateWave fails exactly when the body holds a null wavelet; otherwise one line per wavelet, in order. */
  lemma {:induction false} WaveLinesMeaning(body: seq<Option<CWavelet>>)
    ensures WaveLines(body).Failure? <==> exists i :: 0 <= i < |body| && body[i].None?
    ensures WaveLines(body).Failure? ==> WaveLines(body).error == NullPointer
    ensures WaveLines(body).Success? ==>
      |WaveLines(body).value| == |body| &&
      forall i :: 0 <= i < |body| ==> body[i].Some? && WaveLines(body).value[i] == WaveLine(body[i].value)
    decreases |body|
  {
    if body != [] {
      var init := body[..|body| - 1];
      WaveLinesMeaning(init);
      assert forall i :: 0 <= i < |init| ==> init[i] == body[i];
    }
  }

  /** The inbox list model as updateInbox fills it. */
  method BuildInboxModel(inbox: seq<InboxElement>) returns (model: seq<string>)
    ensures |model| == |inbox|
    ensures forall i :: 0 <= i < |inbox| ==> model[i] == InboxRow(inbox[i])
  {
    model := [];
    var i := 0;
    while i < |inbox|
      invariant 0 <= i <= |inbox|
      invariant |model| == i
      invariant forall k :: 0 <= k < i ==> model[k] == InboxRow(inbox[k])
    {
      var tempElem := inbox[i];
      var tempStr := "";
      if tempElem.read == false {
        tempStr := tempStr + "[NEW] ";
      }
      tempStr := tempStr + ("(" + tempElem.id + ") ");
      tempStr := tempStr + tempElem.digest;
      model := model + [tempStr];
      i := i + 1;
    }
  }

  /** The participants label as updateWave builds it. */
  method BuildParticipantsLabel(participants: seq<string>) returns (text: string)
    ensures text == ParticipantsLabel(participants)
  {
    text := "";
    var i := 0;
    while i < |participants|
      invariant 0 <= i <= |participants|
      invariant text == ParticipantsLabel(participants[..i])
    {
      assert participants[..i + 1][..i] == participants[..i];
      text := text + participants[i];
      text := text + ", ";
      i := i + 1;
    }
    assert participants[..i] == participants;
  }

  /** The wave list model as updateWave fills it, stopping at a null wavelet. */
  method BuildWaveModel(waveBody: seq<Option<CWavelet>>) returns (r: Result<seq<string>>)
    ensures r == WaveLines(waveBody)
  {
    var model: seq<string> := [];
    var i := 0;
    while i < |waveBody|
      invariant 0 <= i <= |waveBody|
      invariant WaveLines(waveBody[..i]) == Success(model)
    {
      assert waveBody[..i + 1][..i] == waveBody[..i];
      var tempWavelet := waveBody[i];
      if tempWavelet.None? {
        assert WaveLines(waveBody[..i + 1]).Failure?;
        WaveLinesMeaning(waveBody[..i + 1]);
        WaveLinesMeaning(waveBody);
        assert waveBody[..i + 1][i] == waveBody[i];
        return Failure(NullPointer);
      }
      model := model + [WaveLine(tempWavelet.value)];
      i := i + 1;
    }
    assert waveBody[..i] == waveBody;
    r := Success(model);
  }

  /** What the window shows. */
  datatype View = View(currentUser: string, inbox: seq<string>, participants: string, wave: seq<string>)

  /** How a refresh step ends, with the connector's and the window's state after it. */
  datatype Refreshed = Refreshed(outcome: Outcome, conn: ConnState, view: View)

  /** updateInbox: the user label, then the inbox (getInbox first records the open wave as seen). */
  function UpdateInboxEffect(b: Backend, c: ConnState, v: View): Refreshed
    requires Tracks(c, b)
  {
    if !c.connected then Refreshed(Fail(NullPointer), c, v)
    else
      var c1 := c.(lastSeen := SeenOpen(c, b));
      var v1 := v.(currentUser := b.user.address);
      if !AllKnown(b) then Refreshed(Fail(NullPointer), c1, v1)
      else Refreshed(Pass, c1, v1.(inbox := InboxModel(InboxOf(b, c1.lastSeen))))
  }

  /** updateWave: the participants label, then the wave list. */
  function UpdateWaveEffect(b: Backend, c: ConnState, v: View): Refreshed
    requires Tracks(c, b)
  {
    if !c.connected then Refreshed(Fail(ServerNotConnected), c, v)
    else
      var v1 := v.(participants := ParticipantsLabel(ParticipantsOf(c, b)));
      if c.openWave.None? then Refreshed(Pass, c, v1.(wave := []))
      else
        match WaveBody(b.waves[c.openWave.value].documents)
        case Failure(err) => Refreshed(Fail(err), c, v1)
        case Success(body) =>
          var c1 := c.(lastSeen := SeenOpen(c, b));
          match WaveLines(body)
          case Failure(err) => Refreshed(Fail(err), c1, v1)
          case Success(lines) => Refreshed(Pass, c1, v1.(wave := lines))
  }

  /** refresh: updateInbox, then updateWave unless updateInbox threw. */
  function RefreshEffect(b: Backend, c: ConnState, v: View): Refreshed
    requires Tracks(c, b)
  {
    var r1 := UpdateInboxEffect(b, c, v);
    if r1.outcome.Fail? then r1 else UpdateWaveEffect(b, r1.conn, r1.view)
  }

  /** A refresh changes only the last seen versions of the connector. */
  lemma RefreshKeepsConnection(b: Backend, c: ConnState, v: View)
    requires Tracks(c, b)
    ensures RefreshEffect(b, c, v).conn.connected == c.connected
    ensures RefreshEffect(b, c, v).conn.openWave == c.openWave
    ensures Tracks(RefreshEffect(b, c, v).conn, b)
  {
  }

  /** Once the inbox can be listed, a refresh shows one row per index entry, in index order. */
  lemma RefreshShowsInbox(b: Backend, c: ConnState, v: View)
    requires Tracks(c, b) && c.connected && AllKnown(b)
    ensures |RefreshEffect(b, c, v).view.inbox| == |b.index|
    ensures forall i :: 0 <= i < |b.index| ==> RefreshEffect(b, c, v).view.inbox[i] == InboxRow(InboxOf(b, SeenOpen(c, b))[i])
  {
  }

  /** After a refresh the open wave's inbox rows carry no "[NEW] " marker. */
  lemma RefreshShowsOpenWaveRead(b: Backend, c: ConnState, v: View, i: int)
    requires Tracks(c, b) && c.connected && AllKnown(b) && c.openWave.Some?
    requires 0 <= i < |b.index| && b.index[i].waveId == c.openWave.value
    ensures !(|RefreshEffect(b, c, v).view.inbox[i]| >= 6 && RefreshEffect(b, c, v).view.inbox[i][..6] == "[NEW] ")
  {
    RefreshShowsInbox(b, c, v);
    OpenWaveShownRead(c, b, i);
    InboxRowMarksUnread(InboxOf(b, SeenOpen(c, b))[i]);
  }

  /**
   * An open wave whose one document is made of well-formed lines is shown
   * line by line as "author SAYS: text", in order.
   */
  lemma {:induction false} RefreshShowsLines(b: Backend, c: ConnState, v: View, lines: seq<CWavelet>)
    requires Tracks(c, b) && c.connected && AllKnown(b) && c.openWave.Some?
    requires b.waves[c.openWave.value].documents == [LinesDocument(lines)]
    ensures RefreshEffect(b, c, v).outcome == Pass
    ensures |RefreshEffect(b, c, v).view.wave| == |lines|
    ensures forall i :: 0 <= i < |lines| ==> RefreshEffect(b, c, v).view.wave[i] == WaveLine(lines[i])
  {
    SingleLinesDocument(lines);
    WaveLinesMeaning(Present(lines));
  }

  /** A wave with one document of well-formed lines has those lines as its body. */
  lemma SingleLinesDocument(lines: seq<CWavelet>)
    ensures WaveBody([LinesDocument(lines)]) == Success(Present(lines))
  {
    var docs := [LinesDocument(lines)];
    assert docs[1..] == [];
    assert Flatten(docs) == LinesDocument(lines) + [];
    assert LinesDocument(lines) + [] == LinesDocument(lines);
    LinesReadBack(Start, lines);
    assert [] + Present(lines) == Present(lines);
  }

  class ConsoleClient {
    const conn: WaveConnector
    var currentUser: string
    var inboxModel: seq<string>
    var participantsText: string
    var waveModel: seq<string>

    function Shown(): View
      reads this
    {
      View(currentUser, inboxModel, participantsText, waveModel)
    }

    /** The connector is created and connected; the window starts out empty. */
    constructor ()
      ensures fresh(conn) && conn.Valid() && conn.State() == ConnState(true, None, map[]) && conn.requests == []
      ensures Shown() == View("", [], "", [])
    {
      conn := new WaveConnector();
      currentUser := "";
      inboxModel := [];
      participantsText := "";
      waveModel := [];
      new;
      conn.Connect();
    }

    method UpdateInbox(b: Backend) returns (r: Outcome)
      requires conn.Valid() && Tracks(conn.State(), b)
      modifies this, conn
      ensures conn.Valid() && conn.requests == old(conn.requests)
      ensures Refreshed(r, conn.State(), Shown()) == UpdateInboxEffect(b, old(conn.State()), old(Shown()))
    {
      if !conn.IsConnected() {
        // getUserId dereferences the backend before getInbox can check the connection.
        return Fail(NullPointer);
      }
      currentUser := b.user.address;
      var inbox := conn.GetInbox(b);
      if inbox.Failure? {
        return Fail(inbox.error);
      }
      var model := BuildInboxModel(inbox.value);
      inboxModel := model;
      r := Pass;
    }

    method UpdateWave(b: Backend) returns (r: Outcome)
      requires conn.Valid() && Tracks(conn.State(), b)
      modifies this, conn
      ensures conn.Valid() && conn.requests == old(conn.requests)
      ensures Refreshed(r, conn.State(), Shown()) == UpdateWaveEffect(b, old(conn.State()), old(Shown()))
    {
      var participants := conn.GetWaveParticipants(b);
      if participants.Failure? {
        return Fail(participants.error);
      }
      var shown := BuildParticipantsLabel(participants.value);
      participantsText := shown;
      var waveBody := conn.GetWaveBody(b);
      if waveBody.Failure? {
        return Fail(waveBody.error);
      }
      var lines := BuildWaveModel(waveBody.value);
      if lines.Failure? {
        return Fail(lines.error);
      }
      waveModel := lines.value;
      r := Pass;
    }

    method Refresh(b: Backend) returns (r: Outcome)
      requires conn.Valid() && Tracks(conn.State(), b)
      modifies this, conn
      ensures conn.Valid() && conn.requests == old(conn.requests)
      ensures Refreshed(r, conn.State(), Shown()) == RefreshEffect(b, old(conn.State()), old(Shown()))
    {
      r := UpdateInbox(b);
      if r.Fail? {
        return;
      }
      r := UpdateWave(b);
    }

    /** "New Wave". */
    method OnNewWave(b: Backend) returns (r: Outcome)
      requires conn.Valid() && Tracks(conn.State(), b)
      modifies this, conn
      ensures conn.Valid()
      ensures conn.requests == old(conn.requests) + (if old(conn.connected) then [CreateNewWave] else [])
      ensures !old(conn.connected) ==> r == Fail(ServerNotConnected) && conn.State() == old(conn.State()) && Shown() == old(Shown())
      ensures old(conn.connected) ==> Refreshed(r, conn.State(), Shown()) == RefreshEffect(b, old(conn.State()), old(Shown()))
    {
      r := conn.CreateWave();
      if r.Fail? {
        return;
      }
      r := Refresh(b);
    }

    /** "Open Wave", with the inbox list's selected index (-1 when nothing is selected). */
    method OnOpenWave(b: Backend, selectedIndex: int) returns (r: Outcome)
      requires conn.Valid() && Tracks(conn.State(), b)
      modifies this, conn
      ensures conn.Valid()
      ensures selectedIndex == -1 ==>
        r == Pass && conn.State() == old(conn.State()) && conn.requests == old(conn.requests) && Shown() == old(Shown())
      ensures selectedIndex != -1 && (!old(conn.connected) || !(0 <= selectedIndex < |b.index|)) ==>
        && r == (if !old(conn.connected) then Fail(ServerNotConnected) else Fail(IndexOutOfBounds))
        && conn.State() == old(conn.State()) && conn.requests == old(conn.requests) && Shown() == old(Shown())
      ensures selectedIndex != -1 && old(conn.connected) && 0 <= selectedIndex < |b.index| && b.index[selectedIndex].waveId !in b.waves ==>
        && r == Fail(NullPointer)
        && conn.State() == old(conn.State()).(openWave := None) && conn.requests == old(conn.requests) && Shown() == old(Shown())
      ensures selectedIndex != -1 && old(conn.connected) && 0 <= selectedIndex < |b.index| && b.index[selectedIndex].waveId in b.waves ==>
        var w := b.index[selectedIndex].waveId;
        && conn.requests == old(conn.requests) + (if b.waves[w].hasRoot then [] else [CreateConversationRoot(w)])
        && Refreshed(r, conn.State(), Shown()) == RefreshEffect(b, old(conn.State()).(openWave := Some(w)), old(Shown()))
    {
      if selectedIndex != -1 {
        r := conn.OpenWave(b, selectedIndex);
        if r.Fail? {
          return;
        }
        r := Refresh(b);
      } else {
        r := Pass;
      }
    }

    /** "Close Wave". */
    method OnCloseWave(b: Backend) returns (r: Outcome)
      requires conn.Valid() && Tracks(conn.State(), b)
      modifies this, conn
      ensures conn.Valid() && conn.requests == old(conn.requests)
      ensures Refreshed(r, conn.State(), Shown()) == RefreshEffect(b, old(conn.State()).(openWave := None), old(Shown()))
    {
      conn.CloseOpenWave();
      r := Refresh(b);
    }

    /** "Mark all waves read". */
    method OnMarkAllRead(b: Backend) returns (r: Outcome)
      requires conn.Valid() && Tracks(conn.State(), b)
      modifies this, conn
      ensures conn.Valid() && conn.requests == old(conn.requests)
      ensures !old(conn.connected) ==> r == Fail(NullPointer) && conn.State() == old(conn.State()) && Shown() == old(Shown())
      ensures old(conn.connected) ==>
        Refreshed(r, conn.State(), Shown())
          == RefreshEffect(b, old(conn.State()).(lastSeen := Marked(old(conn.lastSeen), b, b.index)), old(Shown()))
    {
      r := conn.ReadAllWaves(b);
      if r.Fail? {
        return;
      }
      r := Refresh(b);
    }

    /** "Add participant", with the name typed into the dialog; a conflict is reported and the window refreshed. */
    method OnAddParticipant(b: Backend, name: string) returns (r: Outcome)
      requires conn.Valid() && Tracks(conn.State(), b)
      modifies this, conn
      ensures conn.Valid()
      ensures old(conn.openWave).None? ==>
        r == Pass && conn.State() == old(conn.State()) && conn.requests == old(conn.requests) && Shown() == old(Shown())
      ensures old(conn.openWave).Some? ==>
        var w := old(conn.openWave).value;
        var p := ParticipantId(name);
        && conn.requests == old(conn.requests) + (if p !in b.waves[w].participants then [SendOperation(w, WaveletOp.AddParticipant(p))] else [])
        && Refreshed(r, conn.State(), Shown()) == RefreshEffect(b, old(conn.State()), old(Shown()))
    {
      if conn.IsWaveOpen() {
        var _ := conn.AddParticipant(b, name);
        r := Refresh(b);
      } else {
        r := Pass;
      }
    }

    /** "Remove Participant", with the name typed into the dialog; a missing participant is reported and the window refreshed. */
    method OnRemoveParticipant(b: Backend, name: string) returns (r: Outcome)
      requires conn.Valid() && Tracks(conn.State(), b)
      modifies this, conn
      ensures conn.Valid()
      ensures old(conn.openWave).None? ==>
        r == Pass && conn.State() == old(conn.State()) && conn.requests == old(conn.requests) && Shown() == old(Shown())
      ensures old(conn.openWave).Some? ==>
        var w := old(conn.openWave).value;
        var p := ParticipantId(name);
        && conn.requests == old(conn.requests) + (if p in b.waves[w].participants then [SendOperation(w, WaveletOp.RemoveParticipant(p))] else [])
        && Refreshed(r, conn.State(), Shown()) == RefreshEffect(b, old(conn.State()), old(Shown()))
    {
      if conn.IsWaveOpen() {
        var _ := conn.RemoveParticipant(b, name);
        r := Refresh(b);
      } else {
        r := Pass;
      }
    }

    /** "Remove self". */
    method OnRemoveSelf(b: Backend) returns (r: Outcome)
      requires conn.Valid() && Tracks(conn.State(), b)
      modifies this, conn
      ensures conn.Valid()
      ensures old(conn.openWave).None? ==>
        r == Pass && conn.State() == old(conn.State()) && conn.requests == old(conn.requests) && Shown() == old(Shown())
      ensures old(conn.openWave).Some? ==>
        var w := old(conn.openWave).value;
        && conn.requests == old(conn.requests) + (if b.user in b.waves[w].participants then [SendOperation(w, WaveletOp.RemoveParticipant(b.user))] else [])
        && Refreshed(r, conn.State(), Shown()) == RefreshEffect(b, old(conn.State()), old(Shown()))
    {
      if conn.IsWaveOpen() {
        var _ := conn.RemoveSelfFromWave(b);
        r := Refresh(b);
      } else {
        r := Pass;
      }
    }

    /** "Send", with the text of the entry field. */
    method OnSend(b: Backend, text: string) returns (r: Outcome)
      requires conn.Valid() && Tracks(conn.State(), b)
      modifies this, conn
      ensures conn.Valid()
      ensures old(conn.openWave).None? ==>
        r == Pass && conn.State() == old(conn.State()) && conn.requests == old(conn.requests) && Shown() == old(Shown())
      ensures old(conn.openWave).Some? ==>
        var w := old(conn.openWave).value;
        && conn.requests == old(conn.requests)
             + [SendOperation(w, DocumentOperation(MAIN_DOCUMENT_ID, AppendOp(b.waves[w].mainDocSize, b.user.address, text)))]
        && Refreshed(r, conn.State(), Shown()) == RefreshEffect(b, old(conn.State()), old(Shown()))
    {
      if conn.IsWaveOpen() {
        var _ := conn.AppendToWave(b, text);
        r := Refresh(b);
      } else {
        r := Pass;
      }
    }
  }
}
