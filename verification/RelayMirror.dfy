/** The relay's mirror of one host's session: a bounded, numbered log of durable events that a browser
    replays when it connects and then follows live. */
module RelayMirror {
  type Content(==, !new)

  const KEEP_MIRROR_EVENTS: nat := 400
  const MAX_MIRROR_BYTES: nat := 1_500_000

  /** A durable frame; `chars` is the length of its JSON text. */
  datatype Frame = Frame(number: nat, content: Content, chars: nat)

  datatype Message =
    | MirrorReset
    | Durable(frame: Frame)
    | Live(content: Content)
    | MirrorReady(number: nat)

  /** A browser socket with everything it was sent; a dead one throws on every send. */
  datatype Client = Client(alive: bool, received: seq<Message>)

  /** `issued` is the history of all durable frames since the pairing was made. */
  datatype Mirror = Mirror(events: seq<Frame>, last: nat, clients: seq<Client>, issued: seq<Frame>)

  const BLANK := Mirror([], 0, [], [])

  // ---- The retained log ----

  function Chars(frames: seq<Frame>): nat {
    if frames == [] then 0 else frames[0].chars + 1 + Chars(frames[1..])
  }

  /** The length of the JSON text of the log, brackets and commas included. */
  function LogChars(frames: seq<Frame>): nat {
    if frames == [] then 2 else 1 + Chars(frames)
  }

  predicate Fits(frames: seq<Frame>) {
    |frames| <= KEEP_MIRROR_EVENTS && LogChars(frames) <= MAX_MIRROR_BYTES
  }

  function Trim(frames: seq<Frame>): seq<Frame> {
    if frames == [] || Fits(frames) then frames else Trim(frames[1..])
  }

  predicate IsSuffix<T(==)>(part: seq<T>, whole: seq<T>) {
    |part| <= |whole| && part == whole[|whole| - |part|..]
  }

  /** The trim keeps the longest suffix within both limits. */
  lemma {:induction false} TrimKeepsTheMost(frames: seq<Frame>, part: seq<Frame>)
    ensures Fits(Trim(frames)) && IsSuffix(Trim(frames), frames)
    ensures IsSuffix(part, frames) && Fits(part) ==> |part| <= |Trim(frames)|
  {
    if frames != [] && !Fits(frames) {
      if IsSuffix(part, frames) && Fits(part) {
        assert part != frames;
        assert frames[|frames| - |part|..] == frames[1..][|frames| - 1 - |part|..];
      }
      TrimKeepsTheMost(frames[1..], part);
      var t := Trim(frames[1..]);
      assert frames[1..][|frames| - 1 - |t|..] == frames[|frames| - |t|..];
    }
  }

  // ---- The handlers ----

  function Send(c: Client, m: Message): Client {
    if c.alive then c.(received := c.received + [m]) else c
  }

  function Broadcast(clients: seq<Client>, m: Message): seq<Client> {
    seq(|clients|, i requires 0 <= i < |clients| => Send(clients[i], m))
  }

  function Replay(frames: seq<Frame>): seq<Message> {
    seq(|frames|, i requires 0 <= i < |frames| => Durable(frames[i]))
  }

  /** What a browser is sent when it connects. */
  function Greeting(events: seq<Frame>): seq<Message> {
    [MirrorReset] + Replay(events) + [MirrorReady(if events == [] then 0 else events[|events| - 1].number)]
  }

  function Reset(m: Mirror): Mirror {
    m.(events := [], clients := Broadcast(m.clients, MirrorReset))
  }

  function Store(m: Mirror, content: Content, chars: nat): Mirror {
    var frame := Frame(m.last + 1, content, chars);
    Mirror(Trim(m.events + [frame]), m.last + 1, Broadcast(m.clients, Durable(frame)), m.issued + [frame])
  }

  datatype Event =
    | HostEvent(content: Content, chars: nat, reset: bool, durable: bool)
    | ClientConnects
    | ClientDies(i: nat)
    | ClientVanishes(i: nat)
    | Revokes

  function Step(m: Mirror, e: Event): Mirror {
    match e
    case HostEvent(content, chars, reset, durable) =>
      var begun := if reset then Reset(m) else m;
      if durable then Store(begun, content, chars)
      else begun.(clients := Broadcast(begun.clients, Live(content)))
    case ClientConnects => m.(clients := m.clients + [Client(true, Greeting(m.events))])
    case ClientDies(i) => if i < |m.clients| then m.(clients := m.clients[i := m.clients[i].(alive := false)]) else m
    case ClientVanishes(i) => if i < |m.clients| then m.(clients := m.clients[..i] + m.clients[i + 1..]) else m
    case Revokes => Mirror([], 0, seq(|m.clients|, i requires 0 <= i < |m.clients| => m.clients[i].(alive := false)), [])
  }

  function Run(m: Mirror, es: seq<Event>): Mirror
    decreases |es|
  {
    if es == [] then m else Run(Step(m, es[0]), es[1..])
  }

  class MirrorStore {
    var events: seq<Frame>
    var last: nat
    var clients: seq<Client>
    ghost var issued: seq<Frame>

    ghost function Model(): Mirror
      reads this
    {
      Mirror(events, last, clients, issued)
    }

    constructor ()
      ensures Model() == BLANK
    {
      events, last, clients, issued := [], 0, [], [];
    }

    method BroadcastMirror(m: Message)
      modifies this
      ensures Model() == old(Model()).(clients := Broadcast(old(clients), m))
    {
      var i := 0;
      while i < |clients|
        invariant i <= |clients| == |old(clients)|
        invariant Model() == old(Model()).(clients := clients)
        invariant forall k | 0 <= k < i :: clients[k] == Send(old(clients)[k], m)
        invariant forall k | i <= k < |clients| :: clients[k] == old(clients)[k]
      {
        if clients[i].alive {
          clients := clients[i := clients[i].(received := clients[i].received + [m])];
        }
        i := i + 1;
      }
      assert clients == Broadcast(old(clients), m);
    }

    /** Number an event, append it to the log and shift old frames out until the log fits again. */
    method StoreMirrorEvent(content: Content, chars: nat) returns (frame: Frame)
      modifies this
      ensures frame == Frame(old(last) + 1, content, chars)
      ensures Model() == Mirror(Trim(old(events) + [frame]), old(last) + 1, old(clients), old(issued) + [frame])
    {
      frame := Frame(last + 1, content, chars);
      var kept := events + [frame];
      while |kept| > KEEP_MIRROR_EVENTS || LogChars(kept) > MAX_MIRROR_BYTES
        invariant Trim(kept) == Trim(events + [frame])
        decreases |kept|
      {
        kept := kept[1..];
      }
      events, last, issued := kept, last + 1, issued + [frame];
    }

    method HandleHostEvent(content: Content, chars: nat, reset: bool, durable: bool)
      modifies this
      ensures Model() == Step(old(Model()), HostEvent(content, chars, reset, durable))
    {
      if reset {
        events := [];
        BroadcastMirror(MirrorReset);
      }
      if durable {
        var frame := StoreMirrorEvent(content, chars);
        BroadcastMirror(Durable(frame));
      } else {
        BroadcastMirror(Live(content));
      }
    }

    method HandleClientConnects()
      modifies this
      ensures Model() == Step(old(Model()), ClientConnects)
    {
      var sent := [MirrorReset];
      for i := 0 to |events|
        invariant sent == [MirrorReset] + Replay(events)[..i]
      {
        sent := sent + [Durable(events[i])];
      }
      assert Replay(events)[..|events|] == Replay(events);
      var newest := if |events| == 0 then 0 else events[|events| - 1].number;
      clients := clients + [Client(true, sent + [MirrorReady(newest)])];
    }
  }

  // ---- Replay and live frames agree ----

  /** The durable frames a browser holds: those received since its last reset. */
  function View(received: seq<Message>): seq<Frame> {
    if received == [] then [] else
      var m, before := received[|received| - 1], View(received[..|received| - 1]);
      if m.MirrorReset? then [] else if m.Durable? then before + [m.frame] else before
  }

  /** A frame's number is its place in the history. */
  predicate Numbered(issued: seq<Frame>) {
    forall i | 0 <= i < |issued| :: issued[i].number == i + 1
  }

  predicate Follows(c: Client, m: Mirror) {
    c.alive ==> IsSuffix(View(c.received), m.issued) && IsSuffix(m.events, View(c.received))
  }

  predicate Sound(m: Mirror) {
    && Numbered(m.issued) && m.last == |m.issued|
    && IsSuffix(m.events, m.issued) && Fits(m.events)
    && forall i | 0 <= i < |m.clients| :: Follows(m.clients[i], m)
  }

  lemma ViewNext(received: seq<Message>, m: Message)
    ensures View(received + [m]) ==
            if m.MirrorReset? then [] else if m.Durable? then View(received) + [m.frame] else View(received)
  {
    assert (received + [m])[..|received|] == received;
  }

  lemma {:induction false} ViewReplay(received: seq<Message>, frames: seq<Frame>)
    ensures View(received + Replay(frames)) == View(received) + frames
    decreases |frames|
  {
    if frames == [] {
      assert received + Replay(frames) == received;
    } else {
      var n := |frames| - 1;
      ViewReplay(received, frames[..n]);
      ViewNext(received + Replay(frames[..n]), Durable(frames[n]));
      assert received + Replay(frames) == (received + Replay(frames[..n])) + [Durable(frames[n])];
    }
  }

  lemma GreetingShowsTheLog(events: seq<Frame>)
    ensures View(Greeting(events)) == events
  {
    ViewNext([], MirrorReset);
    assert [] + [MirrorReset] == [MirrorReset];
    ViewReplay([MirrorReset], events);
    ViewNext([MirrorReset] + Replay(events), MirrorReady(if events == [] then 0 else events[|events| - 1].number));
  }

  lemma SuffixOfSuffix<T>(a: seq<T>, b: seq<T>, c: seq<T>)
    requires IsSuffix(a, b) && IsSuffix(b, c)
    ensures IsSuffix(a, c)
  {
  }

  lemma SuffixNext<T>(a: seq<T>, b: seq<T>, x: T)
    requires IsSuffix(a, b)
    ensures IsSuffix(a + [x], b + [x])
  {
  }

  lemma FollowsDurable(c: Client, m: Mirror, frame: Frame, kept: seq<Frame>, after: Mirror)
    requires Follows(c, m) && IsSuffix(kept, m.events + [frame])
    requires after.events == kept && after.issued == m.issued + [frame]
    ensures Follows(Send(c, Durable(frame)), after)
  {
    if c.alive {
      var view := View(c.received);
      ViewNext(c.received, Durable(frame));
      SuffixNext(view, m.issued, frame);
      SuffixNext(m.events, view, frame);
      SuffixOfSuffix(kept, m.events + [frame], view + [frame]);
    }
  }

  lemma FollowsReset(c: Client, m: Mirror)
    requires m.events == []
    ensures Follows(Send(c, MirrorReset), m)
  {
    ViewNext(c.received, MirrorReset);
  }

  lemma FollowsLive(c: Client, m: Mirror, content: Content, after: Mirror)
    requires Follows(c, m) && after.events == m.events && after.issued == m.issued
    ensures Follows(Send(c, Live(content)), after)
  {
    ViewNext(c.received, Live(content));
  }

  lemma LogKeeps(events: seq<Frame>, issued: seq<Frame>, frame: Frame, kept: seq<Frame>)
    requires Numbered(issued) && frame.number == |issued| + 1 && IsSuffix(events, issued)
    requires kept == Trim(events + [frame])
    ensures Fits(kept) && IsSuffix(kept, events + [frame]) && IsSuffix(kept, issued + [frame]) && Numbered(issued + [frame])
  {
    TrimKeepsTheMost(events + [frame], []);
    SuffixNext(events, issued, frame);
    SuffixOfSuffix(kept, events + [frame], issued + [frame]);
  }

  lemma {:induction false} StoreKeeps(m: Mirror, content: Content, chars: nat)
    requires Sound(m)
    ensures Sound(Store(m, content, chars))
  {
    var frame := Frame(m.last + 1, content, chars);
    var after := Store(m, content, chars);
    LogKeeps(m.events, m.issued, frame, after.events);
    forall i | 0 <= i < |after.clients| ensures Follows(after.clients[i], after) {
      FollowsDurable(m.clients[i], m, frame, after.events, after);
    }
  }

  lemma ResetKeeps(m: Mirror)
    requires Sound(m)
    ensures Sound(Reset(m))
  {
    forall i | 0 <= i < |m.clients| ensures Follows(Reset(m).clients[i], Reset(m)) {
      FollowsReset(m.clients[i], Reset(m));
    }
  }

  lemma LiveKeeps(m: Mirror, content: Content)
    requires Sound(m)
    ensures Sound(m.(clients := Broadcast(m.clients, Live(content))))
  {
    var after := m.(clients := Broadcast(m.clients, Live(content)));
    forall i | 0 <= i < |m.clients| ensures Follows(after.clients[i], after) {
      FollowsLive(m.clients[i], m, content, after);
    }
  }

  lemma ClientConnectsKeeps(m: Mirror)
    requires Sound(m)
    ensures Sound(Step(m, ClientConnects))
  {
    GreetingShowsTheLog(m.events);
    var after := Step(m, ClientConnects);
    forall i | 0 <= i < |after.clients| ensures Follows(after.clients[i], after) {
      assert i < |m.clients| ==> Follows(m.clients[i], m);
    }
  }

  lemma OtherStepKeeps(m: Mirror, e: Event)
    requires Sound(m) && !e.HostEvent? && !e.ClientConnects?
    ensures Sound(Step(m, e))
  {
    var after := Step(m, e);
    forall i | 0 <= i < |after.clients| ensures Follows(after.clients[i], after) {
      assert i < |m.clients| ==> Follows(m.clients[i], m);
      assert i + 1 < |m.clients| ==> Follows(m.clients[i + 1], m);
    }
  }

  lemma StepKeeps(m: Mirror, e: Event)
    requires Sound(m)
    ensures Sound(Step(m, e))
  {
    match e
    case HostEvent(content, chars, reset, durable) =>
      ResetKeeps(m);
      var begun := if reset then Reset(m) else m;
      if durable {
        StoreKeeps(begun, content, chars);
      } else {
        LiveKeeps(begun, content);
      }
    case ClientConnects => ClientConnectsKeeps(m);
    case _ => OtherStepKeeps(m, e);
  }

  lemma {:induction false} RunKeeps(m: Mirror, es: seq<Event>)
    requires Sound(m)
    ensures Sound(Run(m, es))
    decreases |es|
  {
    if es != [] {
      StepKeeps(m, es[0]);
      RunKeeps(Step(m, es[0]), es[1..]);
    }
  }

  /** Over every run, the frames a connected browser holds since its last reset are consecutively
      numbered up to the stored counter, and the retained log is a bounded suffix of them. */
  lemma BrowsersFollowTheLog(es: seq<Event>, i: nat)
    ensures var m := Run(BLANK, es);
            i < |m.clients| && m.clients[i].alive ==>
              var view := View(m.clients[i].received);
              && (forall k | 0 <= k < |view| :: view[k].number == m.last - |view| + k + 1)
              && IsSuffix(m.events, view) && Fits(m.events)
  {
    RunKeeps(BLANK, es);
    var m := Run(BLANK, es);
    if i < |m.clients| {
      assert Follows(m.clients[i], m);
    }
  }

  /** Two browsers never disagree: what one holds is the end of what the other holds. */
  lemma BrowsersAgree(es: seq<Event>, i: nat, j: nat)
    ensures var m := Run(BLANK, es);
            i < |m.clients| && j < |m.clients| && m.clients[i].alive && m.clients[j].alive ==>
              var a, b := View(m.clients[i].received), View(m.clients[j].received);
              IsSuffix(a, b) || IsSuffix(b, a)
  {
    RunKeeps(BLANK, es);
    var m := Run(BLANK, es);
    if i < |m.clients| && j < |m.clients| {
      assert Follows(m.clients[i], m) && Follows(m.clients[j], m);
    }
  }

  // ---- What is retained, and what every browser hears ----

  /** How many durable events there have been since the pairing was made. */
  function Stored(es: seq<Event>): nat {
    if es == [] || es[|es| - 1].Revokes? then 0
    else Stored(es[..|es| - 1]) + if es[|es| - 1].HostEvent? && es[|es| - 1].durable then 1 else 0
  }

  /** The durable frames since the host last began anew. */
  function SinceReset(es: seq<Event>): seq<Frame> {
    if es == [] then [] else
      var before := es[..|es| - 1];
      match es[|es| - 1]
      case HostEvent(content, chars, reset, durable) =>
        (if reset then [] else SinceReset(before)) + if durable then [Frame(Stored(before) + 1, content, chars)] else []
      case Revokes => []
      case _ => SinceReset(before)
  }

  lemma {:induction false} RunExtends(m: Mirror, es: seq<Event>, e: Event)
    ensures Run(m, es + [e]) == Step(Run(m, es), e)
    decreases |es|
  {
    if es == [] {
      assert [] + [e] == [e] && [e][1..] == [];
    } else {
      RunExtends(Step(m, es[0]), es[1..], e);
      assert (es + [e])[1..] == es[1..] + [e];
    }
  }

  lemma {:induction false} CharsSplit(a: seq<Frame>, b: seq<Frame>)
    ensures Chars(a + b) == Chars(a) + Chars(b)
  {
    if a == [] {
      assert a + b == b;
    } else {
      assert (a + b)[1..] == a[1..] + b;
      CharsSplit(a[1..], b);
    }
  }

  /** Of frames that fit together with a later one, none was trimmed before. */
  lemma TrimmedBefore(frames: seq<Frame>, frame: Frame, part: seq<Frame>)
    requires IsSuffix(part, frames + [frame]) && Fits(part)
    ensures IsSuffix(part, Trim(frames) + [frame])
  {
    TrimKeepsTheMost(frames, []);
    if part != [] {
      var rest := part[..|part| - 1];
      assert part == rest + [frame];
      assert IsSuffix(rest, frames);
      assert Fits(rest) by {
        CharsSplit(rest, [frame]);
      }
      TrimKeepsTheMost(frames, rest);
    }
  }

  /** Trimming as one goes comes to the same as trimming at the end. */
  lemma TrimTwice(frames: seq<Frame>, frame: Frame)
    ensures Trim(Trim(frames) + [frame]) == Trim(frames + [frame])
  {
    var a, b := Trim(Trim(frames) + [frame]), Trim(frames + [frame]);
    TrimmedEnd(frames, frame, a);
    TrimKeepsTheMost(frames + [frame], a);
    TrimmedBefore(frames, frame, b);
    TrimKeepsTheMost(Trim(frames) + [frame], b);
  }

  lemma TrimmedEnd(frames: seq<Frame>, frame: Frame, a: seq<Frame>)
    requires a == Trim(Trim(frames) + [frame])
    ensures IsSuffix(a, frames + [frame]) && Fits(a)
  {
    TrimKeepsTheMost(frames, []);
    TrimKeepsTheMost(Trim(frames) + [frame], []);
    SuffixNext(Trim(frames), frames, frame);
    SuffixOfSuffix(a, Trim(frames) + [frame], frames + [frame]);
  }

  lemma {:induction false} LogIsTrimmed(es: seq<Event>)
    ensures Run(BLANK, es).events == Trim(SinceReset(es)) && Run(BLANK, es).last == Stored(es)
  {
    if es != [] {
      var before, e := es[..|es| - 1], es[|es| - 1];
      LogIsTrimmed(before);
      RunExtends(BLANK, before, e);
      assert es == before + [e];
      if e.HostEvent? && e.durable {
        var since, frame := if e.reset then [] else SinceReset(before), Frame(Stored(before) + 1, e.content, e.chars);
        TrimTwice(since, frame);
      } else if e.HostEvent? {
        assert SinceReset(before) + [] == SinceReset(before);
      }
    }
  }

  /** The retained log is as long as it may be: the longest end of the durable frames since the host last
      began anew that has at most 400 entries and whose JSON text has at most 1500000 characters. */
  lemma LogKeepsTheMost(es: seq<Event>, part: seq<Frame>)
    ensures var log := Run(BLANK, es).events;
            && IsSuffix(log, SinceReset(es)) && |log| <= 400 && LogChars(log) <= 1_500_000
            && (IsSuffix(part, SinceReset(es)) && |part| <= 400 && LogChars(part) <= 1_500_000 ==> |part| <= |log|)
  {
    LogIsTrimmed(es);
    TrimKeepsTheMost(SinceReset(es), part);
  }

  /** What the relay tells every browser about one event of the host. */
  function Said(es: seq<Event>, e: Event): seq<Message>
    requires e.HostEvent?
  {
    (if e.reset then [MirrorReset] else [])
    + [if e.durable then Durable(Frame(Stored(es) + 1, e.content, e.chars)) else Live(e.content)]
  }

  /** Every event of the host reaches every live browser, after a reset if the host begins anew; nobody
      else hears of it and no connection is lost by it. */
  lemma EveryBrowserHears(es: seq<Event>, e: Event, i: nat)
    requires e.HostEvent? && i < |Run(BLANK, es).clients|
    ensures var before, after := Run(BLANK, es).clients, Run(BLANK, es + [e]).clients;
            && |after| == |before| && after[i].alive == before[i].alive
            && after[i].received == before[i].received + if before[i].alive then Said(es, e) else []
  {
    RunExtends(BLANK, es, e);
    LogIsTrimmed(es);
  }

  /** A browser that connects is sent a reset, the retained log and the newest number in it; the others
      hear nothing. */
  lemma ConnectingReplays(es: seq<Event>)
    ensures var m, joined := Run(BLANK, es), Run(BLANK, es + [ClientConnects]);
            && joined.events == m.events && |joined.clients| == |m.clients| + 1 && m.clients <= joined.clients
            && (var c := joined.clients[|m.clients|];
                && c.alive && |c.received| == |m.events| + 2 && c.received[0] == MirrorReset
                && (forall k | 0 <= k < |m.events| :: c.received[k + 1] == Durable(m.events[k]))
                && c.received[|m.events| + 1] == MirrorReady(if m.events == [] then 0 else Stored(es)))
  {
    RunExtends(BLANK, es, ClientConnects);
    RunKeeps(BLANK, es);
    LogIsTrimmed(es);
  }

  /** A revocation leaves no browser reachable, no log and no number. */
  lemma RevokingForgets(es: seq<Event>)
    ensures var revoked := Run(BLANK, es + [Revokes]);
            revoked.events == [] && revoked.last == 0 && forall c <- revoked.clients :: !c.alive
  {
    RunExtends(BLANK, es, Revokes);
  }
}
