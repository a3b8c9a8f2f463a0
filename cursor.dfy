/**
 * The document cursor of getWaveBody: each document of the conversation root
 * is replayed through one shared CWaveletContainer; a line element supplies an
 * author, a characters event supplies a text and then takes whatever wavelet
 * the container holds (possibly null) into the wave body.
 */
module Cursor {
  import opened Base
  import opened WaveData
  import opened Container

  /** The container and the wave body built so far. */
  datatype Traversal = Traversal(container: ContainerState, body: seq<Option<CWavelet>>)

  const Start := Traversal(Empty, [])

  /** An element the cursor refuses: not a line, or a line without an author. */
  predicate Rejected(e: DocEvent)
  {
    e.ElementStart? && (e.kind != LINE || LINE_AUTHOR !in e.attrs)
  }

  /** One cursor callback. */
  function Step(t: Traversal, e: DocEvent): Result<Traversal>
  {
    match e
    case ElementStart(kind, attrs) =>
      if kind != LINE then Failure(Unsupported)
      else if LINE_AUTHOR !in attrs then Failure(Unsupported)
      else Success(t.(container := WithAuthor(t.container, Some(attrs[LINE_AUTHOR]))))
    case Characters(s) =>
      var c := WithText(t.container, Some(s));
      Success(Traversal(Taken(c), t.body + [c.cwavelet]))
    case ElementEnd => Success(t)
    case AnnotationBoundary => Success(t)
  }

  /** The callbacks for a sequence of events, stopping at the first exception. */
  function Run(t: Traversal, events: seq<DocEvent>): Result<Traversal>
    decreases |events|
  {
    if events == [] then Success(t)
    else
      match Run(t, events[..|events| - 1])
      case Failure(err) => Failure(err)
      case Success(t') => Step(t', events[|events| - 1])
  }

  /** The documents' events, one document after another. */
  function Flatten(docs: seq<seq<DocEvent>>): seq<DocEvent>
    decreases |docs|
  {
    if docs == [] then [] else docs[0] + Flatten(docs[1..])
  }

  /** The wave body getWaveBody returns for the given documents of the open wave. */
  function WaveBody(docs: seq<seq<DocEvent>>): Result<seq<Option<CWavelet>>>
  {
    match Run(Start, Flatten(docs))
    case Failure(err) => Failure(err)
    case Success(t) => Success(t.body)
  }

  /** How many characters events a sequence holds. */
  function CountCharacters(events: seq<DocEvent>): nat
    decreases |events|
  {
    if events == [] then 0
    else CountCharacters(events[..|events| - 1]) + (if events[|events| - 1].Characters? then 1 else 0)
  }

  lemma {:induction false} FlattenAppend(a: seq<seq<DocEvent>>, b: seq<seq<DocEvent>>)
    ensures Flatten(a + b) == Flatten(a) + Flatten(b)
    decreases |a|
  {
    if a == [] {
      assert a + b == b;
    } else {
      assert (a + b)[1..] == a[1..] + b;
      FlattenAppend(a[1..], b);
    }
  }

  /** Once a callback has thrown, later events change nothing. */
  lemma {:induction false} FailureSticks(t: Traversal, a: seq<DocEvent>, b: seq<DocEvent>)
    requires Run(t, a).Failure?
    ensures Run(t, a + b) == Run(t, a)
    decreases |b|
  {
    if b == [] {
      assert a + b == a;
    } else {
      assert (a + b)[..|a + b| - 1] == a + b[..|b| - 1];
      FailureSticks(t, a, b[..|b| - 1]);
    }
  }

  /** Running a concatenation is running the second part from where the first ended. */
  lemma {:induction false} RunAppend(t: Traversal, a: seq<DocEvent>, b: seq<DocEvent>)
    requires Run(t, a).Success?
    ensures Run(t, a + b) == Run(Run(t, a).value, b)
    decreases |b|
  {
    if b == [] {
      assert a + b == a;
    } else {
      assert (a + b)[..|a + b| - 1] == a + b[..|b| - 1];
      RunAppend(t, a, b[..|b| - 1]);
    }
  }

  /**
   * The cursor throws exactly when some element is not a line or is a line
   * without an author, and the exception is then the unsupported-operation one.
   */
  lemma {:induction false} RunFailsIffRejected(t: Traversal, events: seq<DocEvent>)
    ensures Run(t, events).Failure? <==> exists i :: 0 <= i < |events| && Rejected(events[i])
    ensures Run(t, events).Failure? ==> Run(t, events).error == Unsupported
    decreases |events|
  {
    if events != [] {
      var init := events[..|events| - 1];
      RunFailsIffRejected(t, init);
      assert forall i :: 0 <= i < |init| ==> init[i] == events[i];
      if !Run(t, events).Failure? {
        assert !Rejected(events[|events| - 1]);
      }
    }
  }

  /** Each characters event appends exactly one entry, and nothing else appends or removes any. */
  lemma {:induction false} OneEntryPerCharacters(t: Traversal, events: seq<DocEvent>)
    requires Run(t, events).Success?
    ensures |Run(t, events).value.body| == |t.body| + CountCharacters(events)
    ensures Run(t, events).value.body[..|t.body|] == t.body
    decreases |events|
  {
    if events != [] {
      OneEntryPerCharacters(t, events[..|events| - 1]);
    }
  }

  /** The shared container stays settled through the whole traversal. */
  lemma {:induction false} RunKeepsSettled(t: Traversal, events: seq<DocEvent>)
    requires t.container.Settled()
    requires Run(t, events).Success?
    ensures Run(t, events).value.container.Settled()
    decreases |events|
  {
    if events != [] {
      RunKeepsSettled(t, events[..|events| - 1]);
    }
  }

  /** The events of one line as appendToWave writes it: a line element by `w.author`, then `w.text`. */
  function LineEvents(w: CWavelet): seq<DocEvent>
  {
    [ElementStart(LINE, map[LINE_AUTHOR := w.author]), ElementEnd, Characters(w.text)]
  }

  /** A document made of the given lines, in order. */
  function LinesDocument(lines: seq<CWavelet>): seq<DocEvent>
    decreases |lines|
  {
    if lines == [] then [] else LinesDocument(lines[..|lines| - 1]) + LineEvents(lines[|lines| - 1])
  }

  /** Every line wrapped as a present wavelet. */
  function Present(lines: seq<CWavelet>): seq<Option<CWavelet>>
  {
    seq(|lines|, i requires 0 <= i < |lines| => Some(lines[i]))
  }

  /**
   * A document of well-formed lines, read from a container with nothing in it,
   * yields exactly those lines as wavelets, in order, and leaves the container empty.
   */
  lemma {:induction false} LinesReadBack(t: Traversal, lines: seq<CWavelet>)
    requires t.container == Empty
    ensures Run(t, LinesDocument(lines)) == Success(Traversal(Empty, t.body + Present(lines)))
    decreases |lines|
  {
    if lines == [] {
      assert t.body + Present(lines) == t.body;
    } else {
      var init := lines[..|lines| - 1];
      var w := lines[|lines| - 1];
      LinesReadBack(t, init);
      var mid := Traversal(Empty, t.body + Present(init));
      RunAppend(t, LinesDocument(init), LineEvents(w));
      var ev := LineEvents(w);
      RunSnoc(mid, [], ev[0]);
      assert [] + [ev[0]] == [ev[0]];
      RunSnoc(mid, [ev[0]], ev[1]);
      assert [ev[0]] + [ev[1]] == [ev[0], ev[1]];
      RunSnoc(mid, [ev[0], ev[1]], ev[2]);
      assert [ev[0], ev[1]] + [ev[2]] == ev;
      assert t.body + Present(init) + [Some(w)] == t.body + Present(lines);
    }
  }

  /** Running one more event is one more step after the run so far. */
  lemma RunSnoc(t: Traversal, a: seq<DocEvent>, e: DocEvent)
    ensures Run(t, a + [e]) == match Run(t, a) case Failure(err) => Failure(err) case Success(t') => Step(t', e)
  {
    assert (a + [e])[..|a|] == a;
  }

  /** Running a single event is one step. */
  lemma RunOne(t: Traversal, e: DocEvent)
    ensures Run(t, [e]) == Step(t, e)
  {
    assert [e][..0] == [];
  }

  /** A characters event with no author pending appends null and leaves its text waiting for the next author. */
  lemma OrphanText(u: string, x: string, y: string)
    ensures Run(Start, [Characters(x)]) == Success(Traversal(ContainerState(None, Some(x), None), [None]))
    ensures Run(Start, [Characters(x), ElementStart(LINE, map[LINE_AUTHOR := u]), Characters(y)])
         == Success(Traversal(ContainerState(None, Some(y), None), [None, Some(CWavelet(u, x))]))
  {
    var line := ElementStart(LINE, map[LINE_AUTHOR := u]);
    var t1 := Traversal(ContainerState(None, Some(x), None), [None]);
    var t2 := Traversal(ContainerState(None, None, Some(CWavelet(u, x))), [None]);
    var t3 := Traversal(ContainerState(None, Some(y), None), [None, Some(CWavelet(u, x))]);
    assert Run(Start, []) == Success(Start);
    RunSnoc(Start, [], Characters(x));
    assert [] + [Characters(x)] == [Characters(x)];
    assert Start.body + [None] == [None];
    assert Run(Start, [Characters(x)]) == Success(t1);
    RunSnoc(Start, [Characters(x)], line);
    assert [Characters(x)] + [line] == [Characters(x), line];
    assert Run(Start, [Characters(x), line]) == Success(t2);
    RunSnoc(Start, [Characters(x), line], Characters(y));
    assert [Characters(x), line] + [Characters(y)] == [Characters(x), line, Characters(y)];
    assert t2.body + [Some(CWavelet(u, x))] == t3.body;
  }

  /** A line element on its own only records its author. */
  lemma LineAlone(u: string)
    ensures Run(Start, [ElementStart(LINE, map[LINE_AUTHOR := u])]) == Success(Traversal(ContainerState(Some(u), None, None), []))
  {
    var line := ElementStart(LINE, map[LINE_AUTHOR := u]);
    RunOne(Start, line);
    assert WithAuthor(Empty, Some(u)) == ContainerState(Some(u), None, None);
  }

  /** A line element followed by its text yields that line's wavelet and empties the container. */
  lemma LineThenText(u: string, x: string)
    ensures Run(Start, [ElementStart(LINE, map[LINE_AUTHOR := u]), Characters(x)])
         == Success(Traversal(Empty, [Some(CWavelet(u, x))]))
  {
    var line := ElementStart(LINE, map[LINE_AUTHOR := u]);
    var t1 := Traversal(ContainerState(Some(u), None, None), []);
    LineAlone(u);
    RunSnoc(Start, [line], Characters(x));
    assert [line] + [Characters(x)] == [line, Characters(x)];
    assert t1.body + [Some(CWavelet(u, x))] == [Some(CWavelet(u, x))];
  }

  /** A line whose text arrives in two characters events yields its wavelet, then null, and the second part waits. */
  lemma SplitText(u: string, x: string, y: string)
    ensures Run(Start, [ElementStart(LINE, map[LINE_AUTHOR := u]), Characters(x), AnnotationBoundary, Characters(y)])
         == Success(Traversal(ContainerState(None, Some(y), None), [Some(CWavelet(u, x)), None]))
  {
    var a := [ElementStart(LINE, map[LINE_AUTHOR := u]), Characters(x)];
    var t2 := Traversal(Empty, [Some(CWavelet(u, x))]);
    LineThenText(u, x);
    RunSnoc(Start, a, AnnotationBoundary);
    RunSnoc(Start, a + [AnnotationBoundary], Characters(y));
    assert a + [AnnotationBoundary] + [Characters(y)]
        == [ElementStart(LINE, map[LINE_AUTHOR := u]), Characters(x), AnnotationBoundary, Characters(y)];
    assert t2.body + [None] == [Some(CWavelet(u, x)), None];
  }

  /**
   * The cursor handler of getWaveBody, run over the documents with one
   * CWaveletContainer shared by all of them.
   */
  method ReadDocuments(docs: seq<seq<DocEvent>>) returns (r: Result<seq<Option<CWavelet>>>)
    ensures r == WaveBody(docs)
  {
    var waveBody: seq<Option<CWavelet>> := [];
    var container := new CWaveletContainer();
    var d := 0;
    while d < |docs|
      invariant 0 <= d <= |docs|
      invariant Run(Start, Flatten(docs[..d])) == Success(Traversal(container.State(), waveBody))
    {
      ghost var done := Flatten(docs[..d]);
      FlattenAppend(docs[..d], [docs[d]]);
      assert docs[..d + 1] == docs[..d] + [docs[d]];
      assert Flatten([docs[d]]) == docs[d] by {
        assert [docs[d]][1..] == [];
      }
      RunAppend(Start, done, docs[d]);
      var res := ReadDocument(container, waveBody, docs[d]);
      if res.Failure? {
        assert docs == docs[..d + 1] + docs[d + 1..];
        FlattenAppend(docs[..d + 1], docs[d + 1..]);
        FailureSticks(Start, done + docs[d], Flatten(docs[d + 1..]));
        return Failure(res.error);
      }
      waveBody := res.value;
      d := d + 1;
    }
    assert docs[..d] == docs;
    r := Success(waveBody);
  }

  /** The callbacks for one document, on the container and the wave body built so far. */
  method ReadDocument(container: CWaveletContainer, waveBody: seq<Option<CWavelet>>, doc: seq<DocEvent>)
    returns (r: Result<seq<Option<CWavelet>>>)
    modifies container
    ensures Run(Traversal(old(container.State()), waveBody), doc) ==
      match r
      case Failure(err) => Failure(err)
      case Success(body) => Success(Traversal(container.State(), body))
  {
    ghost var t0 := Traversal(container.State(), waveBody);
    var body := waveBody;
    var i := 0;
    assert doc[..0] == [];
    while i < |doc|
      invariant 0 <= i <= |doc|
      invariant Run(t0, doc[..i]) == Success(Traversal(container.State(), body))
    {
      assert doc[..i + 1] == doc[..i] + [doc[i]];
      RunSnoc(t0, doc[..i], doc[i]);
      match doc[i] {
        case ElementStart(kind, attrs) =>
          if kind != LINE || LINE_AUTHOR !in attrs {
            assert doc == doc[..i + 1] + doc[i + 1..];
            FailureSticks(t0, doc[..i + 1], doc[i + 1..]);
            return Failure(Unsupported);
          }
          container.SetAuthor(Some(attrs[LINE_AUTHOR]));
        case Characters(s) =>
          container.SetText(Some(s));
          var w := container.GetWavelet();
          body := body + [w];
        case ElementEnd =>
        case AnnotationBoundary =>
      }
      i := i + 1;
    }
    assert doc[..i] == doc;
    r := Success(body);
  }
}
