/**
 * CWaveletContainer: a scratch holder that buffers an author and a text until
 * both are present, then turns them into a CWavelet and forgets them.
 */
module Container {
  import opened Base
  import opened WaveData

  /** The three fields of a container, as one value. */
  datatype ContainerState = ContainerState(author: Option<string>, text: Option<string>, cwavelet: Option<CWavelet>)
  {
    /** No author and text are pending together: pushToWavelet would have consumed them. */
    predicate Settled()
    {
      author.None? || text.None?
    }
  }

  /** A newly constructed container. */
  const Empty := ContainerState(None, None, None)

  /** pushToWavelet: emit and reset once both fields are set. */
  function Pushed(s: ContainerState): ContainerState
  {
    if s.author.Some? && s.text.Some? then
      ContainerState(None, None, Some(CWavelet(s.author.value, s.text.value)))
    else
      s
  }

  /** setAuthor(a). */
  function WithAuthor(s: ContainerState, a: Option<string>): ContainerState
  {
    Pushed(s.(author := a))
  }

  /** setText(t). */
  function WithText(s: ContainerState, t: Option<string>): ContainerState
  {
    Pushed(s.(text := t))
  }

  /** The state getWavelet leaves behind; the wavelet it returns is `s.cwavelet`. */
  function Taken(s: ContainerState): ContainerState
  {
    s.(cwavelet := None)
  }

  class CWaveletContainer {
    var cwavelet: Option<CWavelet>
    var author: Option<string>
    var text: Option<string>

    function State(): ContainerState
      reads this
    {
      ContainerState(author, text, cwavelet)
    }

    constructor ()
      ensures author == None && text == None && cwavelet == None
    {
      author := None;
      text := None;
      cwavelet := None;
    }

    method SetAuthor(a: Option<string>)
      modifies this
      ensures State() == WithAuthor(old(State()), a)
      ensures State().Settled()
    {
      author := a;
      PushToWavelet();
    }

    method SetText(t: Option<string>)
      modifies this
      ensures State() == WithText(old(State()), t)
      ensures State().Settled()
    {
      text := t;
      PushToWavelet();
    }

    method GetWavelet() returns (w: Option<CWavelet>)
      modifies this
      ensures w == old(cwavelet)
      ensures State() == Taken(old(State()))
    {
      w := cwavelet;
      cwavelet := None;
    }

    method PushToWavelet()
      modifies this
      ensures State() == Pushed(old(State()))
    {
      if author.Some? && text.Some? {
        cwavelet := Some(CWavelet(author.value, text.value));
        author := None;
        text := None;
      }
    }
  }

  /** Whichever setter completes the pair, the wavelet is built from the pair and both fields are reset. */
  lemma BothSetEmits(s: ContainerState, a: string, t: string)
    ensures s.text == Some(t) ==> WithAuthor(s, Some(a)) == ContainerState(None, None, Some(CWavelet(a, t)))
    ensures s.author == Some(a) ==> WithText(s, Some(t)) == ContainerState(None, None, Some(CWavelet(a, t)))
  {
  }

  /** Setting author then text, or text then author, from nothing pending gives the same wavelet. */
  lemma EitherOrder(s: ContainerState, a: string, t: string)
    requires s.author.None? && s.text.None?
    ensures WithText(WithAuthor(s, Some(a)), Some(t)) == ContainerState(None, None, Some(CWavelet(a, t)))
    ensures WithAuthor(WithText(s, Some(t)), Some(a)) == ContainerState(None, None, Some(CWavelet(a, t)))
  {
  }

  /** Every setter leaves the container settled, whatever state it started in. */
  lemma SettersSettle(s: ContainerState, x: Option<string>)
    ensures WithAuthor(s, x).Settled() && WithText(s, x).Settled()
  {
  }

  /** A setter that leaves one field null stores its argument and leaves the wavelet alone. */
  lemma OneNullKeepsWavelet(s: ContainerState, x: Option<string>)
    ensures (x.None? || s.text.None?) ==> WithAuthor(s, x) == s.(author := x)
    ensures (x.None? || s.author.None?) ==> WithText(s, x) == s.(text := x)
  {
  }

  /** Setting the author twice before the text: the emitted wavelet carries the later author. */
  lemma LatestAuthorWins(s: ContainerState, a1: string, a2: string, t: string)
    requires s.text.None?
    ensures WithText(WithAuthor(WithAuthor(s, Some(a1)), Some(a2)), Some(t)).cwavelet == Some(CWavelet(a2, t))
  {
  }

  /** The first getWavelet hands out the wavelet, a second one straight after hands out null. */
  lemma TakeTwice(s: ContainerState)
    ensures Taken(s).cwavelet == None
    ensures Taken(Taken(s)) == Taken(s)
    ensures Taken(s).author == s.author && Taken(s).text == s.text
  {
  }

  /** A call on a container. */
  datatype Call = SetAuthorCall(a: Option<string>) | SetTextCall(t: Option<string>) | GetWaveletCall

  /** The state after a sequence of calls. */
  function Replay(s: ContainerState, calls: seq<Call>): ContainerState
    decreases |calls|
  {
    if calls == [] then s
    else
      var p := Replay(s, calls[..|calls| - 1]);
      match calls[|calls| - 1]
      case SetAuthorCall(a) => WithAuthor(p, a)
      case SetTextCall(t) => WithText(p, t)
      case GetWaveletCall => Taken(p)
  }

  /** Whatever calls a fresh container receives, it never holds a pending author and text together. */
  lemma {:induction false} ReplaySettled(s: ContainerState, calls: seq<Call>)
    requires s.Settled()
    ensures Replay(s, calls).Settled()
    decreases |calls|
  {
    if calls != [] {
      ReplaySettled(s, calls[..|calls| - 1]);
    }
  }

  /** Every wavelet a container holds was built from an author and a text that some call supplied. */
  lemma {:induction false} ReplayWaveletFromCalls(s: ContainerState, calls: seq<Call>)
    requires s == Empty
    ensures Replay(s, calls).cwavelet.Some? ==>
      (exists i :: 0 <= i < |calls| && calls[i] == SetAuthorCall(Some(Replay(s, calls).cwavelet.value.author))) &&
      (exists j :: 0 <= j < |calls| && calls[j] == SetTextCall(Some(Replay(s, calls).cwavelet.value.text)))
    ensures Replay(s, calls).author.Some? ==> exists i :: 0 <= i < |calls| && calls[i] == SetAuthorCall(Replay(s, calls).author)
    ensures Replay(s, calls).text.Some? ==> exists j :: 0 <= j < |calls| && calls[j] == SetTextCall(Replay(s, calls).text)
    decreases |calls|
  {
    if calls != [] {
      var init := calls[..|calls| - 1];
      ReplayWaveletFromCalls(s, init);
      var p := Replay(s, init);
      var n := |calls| - 1;
      assert forall k :: 0 <= k < |init| ==> calls[k] == init[k];
      match calls[n]
      case SetAuthorCall(a) =>
      case SetTextCall(t) =>
      case GetWaveletCall =>
    }
  }
}
