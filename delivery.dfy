/** The delivery path of src/services/whatsappService.js as functions of
    the state it touches: the rate-limit entries, the clock, the
    transport's scripted outcomes and what the transport has delivered.
    The service's methods are proved to compute exactly these functions;
    the properties of the delivery path are proved here, about them. */
module Delivery {
  import opened Wrappers
  import opened WhatsAppConfig
  import MessageSplit
  import RateLimit
  import Seqs

  /** A piece of media as the service sees it: its mimetype and the
      length of its decoded data. */
  datatype Media = Media(mimetype: string, size: nat)

  /** What goes to a chat: a text, a media attachment with caption, or the
      typing indicator. */
  datatype Content = Text(text: string) | Attachment(media: Media, caption: string) | Typing

  datatype Outbound = Outbound(chatId: string, content: Content)

  /** The `options` of `sendMessage`/`sendMedia` as far as the service
      reads them: `typing !== false`, `retry !== false`, and
      `retryCount || 0`. */
  datatype SendOptions = SendOptions(typing: bool, retry: bool, retryCount: nat)

  /** An entry of `messageQueue`. */
  datatype QueuedItem =
    | TextItem(chatId: string, message: string, options: SendOptions, timestamp: int)
    | MediaItem(chatId: string, media: Media, caption: string, options: SendOptions, timestamp: int)

  /** Items older than five minutes are dropped. */
  const StaleAfter: int := 300000

  predicate Stale(item: QueuedItem, at: int) {
    at - item.timestamp > StaleAfter
  }

  /** The chat's stored request times; a chat without an entry is treated
      as an empty list (and gets one). */
  function Stored(limiter: map<string, seq<int>>, chatId: string): seq<int> {
    if chatId in limiter then limiter[chatId] else []
  }

  /** The texts of `chunks` as deliveries to `chatId`, in order. */
  function Texts(chatId: string, chunks: seq<string>): (r: seq<Outbound>)
    ensures |r| == |chunks|
    ensures forall i :: 0 <= i < |chunks| ==> r[i] == Outbound(chatId, Text(chunks[i]))
  {
    seq(|chunks|, i requires 0 <= i < |chunks| => Outbound(chatId, Text(chunks[i])))
  }

  lemma TextsAppend(chatId: string, a: seq<string>, b: seq<string>)
    ensures Texts(chatId, a + b) == Texts(chatId, a) + Texts(chatId, b)
  {
    assert forall i :: 0 <= i < |a + b| ==> Texts(chatId, a + b)[i] == (Texts(chatId, a) + Texts(chatId, b))[i];
  }

  /** `after` is `before` followed by deliveries to `chatId` only. */
  ghost predicate OnlyTo(before: seq<Outbound>, after: seq<Outbound>, chatId: string) {
    |before| <= |after| && after[..|before|] == before
    && forall i :: |before| <= i < |after| ==> after[i].chatId == chatId
  }

  lemma OnlyToTrans(a: seq<Outbound>, b: seq<Outbound>, c: seq<Outbound>, chatId: string)
    requires OnlyTo(a, b, chatId) && OnlyTo(b, c, chatId)
    ensures OnlyTo(a, c, chatId)
  {
    assert c[..|a|] == c[..|b|][..|a|];
  }

  // ---------------------------------------------------------------------
  // Transport and timers

  /** Whether the next transport call goes through under the script
      `outcomes`; an exhausted script means success. */
  function Answer(outcomes: seq<bool>): bool {
    outcomes == [] || outcomes[0]
  }

  /** The script left after one call. */
  function Consume(outcomes: seq<bool>): seq<bool> {
    if outcomes == [] then [] else outcomes[1..]
  }

  /** The longest delay Node.js timers accept. */
  const TimeoutMax: int := 2147483647

  /** How long `setTimeout(resolve, ms)` waits in Node.js: a delay that is
      not a number (`None`), below 1 or above `TimeoutMax` becomes 1 ms. */
  function TimerWait(ms: Option<int>): (w: nat)
    ensures ms.Some? && 1 <= ms.value <= TimeoutMax ==> w == ms.value
    ensures ms.None? || ms.value < 1 || TimeoutMax < ms.value ==> w == 1
  {
    if ms.Some? && 1 <= ms.value <= TimeoutMax then ms.value else 1
  }

  /** What the delivery path reads and changes. */
  datatype Wire = Wire(limiter: map<string, seq<int>>, now: int, script: seq<bool>, delivered: seq<Outbound>)

  /** Whether a step went through (false where the source returns false
      or throws), and the state after it. */
  datatype Step = Step(ok: bool, wire: Wire)

  /** `await this.delay(ms)`. */
  function Wait(w: Wire, ms: int): Wire {
    w.(now := w.now + TimerWait(Some(ms)))
  }

  /** One transport call. */
  function Call(w: Wire, chatId: string, content: Content): Step {
    var ok := Answer(w.script);
    Step(ok, w.(script := Consume(w.script),
                delivered := if ok then w.delivered + [Outbound(chatId, content)] else w.delivered))
  }

  /** `checkRateLimit(chatId)`: with rate limiting off every check passes
      and nothing is stored; otherwise one sliding-window decision on the
      chat's stored times, whose outcome replaces the chat's entry. */
  function Admit(c: Config, w: Wire, chatId: string): Step {
    if !c.rateLimiting then Step(true, w)
    else
      var d := RateLimit.Decide(Stored(w.limiter, chatId), w.now, c.rateLimitPerUser, c.rateLimitWindow);
      Step(d.allowed, w.(limiter := w.limiter[chatId := d.stored]))
  }

  // ---------------------------------------------------------------------
  // sendMessage

  predicate TypingOn(c: Config, options: SendOptions) {
    c.sendTyping && options.typing
  }

  /** The typing indicator of `sendMessage` when enabled, followed by
      `typingDelay`. */
  function TypingStep(c: Config, w: Wire, chatId: string, options: SendOptions): Step {
    if !TypingOn(c, options) then Step(true, w)
    else
      var s := Call(w, chatId, Typing);
      if s.ok then Step(true, Wait(s.wire, c.typingDelay)) else s
  }

  /** The state after chunk `i` went through, with the pause that
      follows every chunk but the last. */
  function ChunkSent(c: Config, w: Wire, chatId: string, chunks: seq<string>, i: nat): (r: Wire)
    requires i < |chunks| && Answer(w.script)
    ensures r.script == Consume(w.script) && r.limiter == w.limiter && r.now >= w.now
    ensures r.delivered == w.delivered + [Outbound(chatId, Text(chunks[i]))]
  {
    var s := Call(w, chatId, Text(chunks[i]));
    if i < |chunks| - 1 then Wait(s.wire, c.messageDelay) else s.wire
  }

  /** The chunk loop of `sendMessage` from chunk `i` on, with
      `messageDelay` between consecutive chunks; the first call that
      throws ends it. */
  function ChunksFrom(c: Config, w: Wire, chatId: string, chunks: seq<string>, i: nat): Step
    requires i <= |chunks|
    decreases |chunks| - i
  {
    if i == |chunks| then Step(true, w)
    else if !Answer(w.script) then Call(w, chatId, Text(chunks[i]))
    else ChunksFrom(c, ChunkSent(c, w, chatId, chunks, i), chatId, chunks, i + 1)
  }

  /** The outcome of `splitMessage(message)` (`None` where it throws)
      followed by the chunk loop; a split that throws sends nothing. */
  function SplitStep(c: Config, w: Wire, chatId: string, split: Option<seq<string>>): Step {
    match split
    case None => Step(false, w)
    case Some(chunks) => ChunksFrom(c, w, chatId, chunks, 0)
  }

  /** The `try` of `sendMessage` after the rate-limit check, for a message
      whose split is `split`. */
  function Pass(c: Config, w: Wire, chatId: string, split: Option<seq<string>>, options: SendOptions): Step {
    var t := TypingStep(c, w, chatId, options);
    if !t.ok then t else SplitStep(c, t.wire, chatId, split)
  }

  /** What `sendMessage` on a ready client answers, how many passes
      (rate-limit checks) it made, and the state it leaves. */
  datatype Sent = Sent(ok: bool, passes: nat, wire: Wire)

  /** `sendMessage(chatId, message, options)` on a ready client, for a
      message whose split is `split`: a refused rate-limit check is final;
      a pass that throws is retried after `retryDelay` while `retry` is on
      and `retryCount < maxRetries`, each retry a full new pass. */
  function MessageSend(c: Config, w: Wire, chatId: string, split: Option<seq<string>>, options: SendOptions): Sent
    decreases if options.retryCount <= c.maxRetries then c.maxRetries - options.retryCount else 0
  {
    var a := Admit(c, w, chatId);
    if !a.ok then Sent(false, 1, a.wire)
    else
      var p := Pass(c, a.wire, chatId, split, options);
      if p.ok then Sent(true, 1, p.wire)
      else if options.retry && options.retryCount < c.maxRetries then
        var r := MessageSend(c, Wait(p.wire, c.retryDelay), chatId, split, options.(retryCount := options.retryCount + 1));
        Sent(r.ok, 1 + r.passes, r.wire)
      else Sent(false, 1, p.wire)
  }

  /** `sendMedia(chatId, media, caption)` on a ready client: one
      rate-limit check and one transport call. */
  function MediaSend(c: Config, w: Wire, chatId: string, media: Media, caption: string): Step {
    var a := Admit(c, w, chatId);
    if !a.ok then a else Call(a.wire, chatId, Attachment(media, caption))
  }

  // ---------------------------------------------------------------------
  // processMessageQueue

  /** `splitMessage` under the configured maximum length. The drain takes
      the splitter as a parameter, and what is proved about the drain holds
      whatever the splitter. */
  function Splitter(c: Config): string -> Option<seq<string>> {
    message => MessageSplit.SplitMessage(message, c.maxMessageLength)
  }

  /** How the drain deals with one item taken off the queue: a stale one
      is dropped at once; a text item gets `sendMessage` with `retry` off,
      a media item `sendMedia`, each followed by `messageDelay`. */
  function Take(c: Config, split: string -> Option<seq<string>>, w: Wire, item: QueuedItem): Wire {
    if Stale(item, w.now) then w
    else match item
      case TextItem(chatId, message, options, _) =>
        Wait(MessageSend(c, w, chatId, split(message), options.(retry := false)).wire, c.messageDelay)
      case MediaItem(chatId, media, caption, _, _) =>
        Wait(MediaSend(c, w, chatId, media, caption).wire, c.messageDelay)
  }

  /** The drain loop of `processMessageQueue`, from the head. */
  function Drain(c: Config, split: string -> Option<seq<string>>, w: Wire, queue: seq<QueuedItem>): Wire
    decreases |queue|
  {
    if queue == [] then w else Drain(c, split, Take(c, split, w, queue[0]), queue[1..])
  }

  // ---------------------------------------------------------------------
  // What the delivery path promises

  /** What one successful pass delivers: the typing indicator when
      enabled, then the chunks in order. */
  function Transcript(c: Config, chatId: string, options: SendOptions, chunks: seq<string>): seq<Outbound> {
    (if TypingOn(c, options) then [Outbound(chatId, Typing)] else []) + Texts(chatId, chunks)
  }

  /** The number of the next `n` calls that go through before the first
      one that throws. */
  function Succeeding(outcomes: seq<bool>, n: nat): (k: nat)
    ensures k <= n
  {
    if n == 0 || !Answer(outcomes) then 0 else 1 + Succeeding(Consume(outcomes), n - 1)
  }

  /** The script after `m` calls. */
  function Drop(outcomes: seq<bool>, m: nat): seq<bool> {
    if m == 0 then outcomes else Drop(Consume(outcomes), m - 1)
  }

  /** A clean transport lets every call through and keeps its script empty. */
  lemma {:induction false} CleanScript(n: nat)
    ensures Succeeding([], n) == n && Drop([], n) == []
  {
    if n > 0 {
      CleanScript(n - 1);
    }
  }

  /** The chunk loop succeeds exactly when none of its calls throws. */
  lemma {:induction false} ChunksOk(c: Config, w: Wire, chatId: string, chunks: seq<string>, i: nat)
    requires i <= |chunks|
    ensures ChunksFrom(c, w, chatId, chunks, i).ok <==> Succeeding(w.script, |chunks| - i) == |chunks| - i
    decreases |chunks| - i
  {
    if i < |chunks| && Answer(w.script) {
      ChunksOk(c, ChunkSent(c, w, chatId, chunks, i), chatId, chunks, i + 1);
    }
  }

  /** The chunk loop delivers exactly the chunks before the first call
      that throws, in order, and stops there. */
  lemma {:induction false} ChunksDelivered(c: Config, w: Wire, chatId: string, chunks: seq<string>, i: nat)
    requires i <= |chunks|
    ensures ChunksFrom(c, w, chatId, chunks, i).wire.delivered
         == w.delivered + Texts(chatId, chunks[i..i + Succeeding(w.script, |chunks| - i)])
    decreases |chunks| - i
  {
    var k := Succeeding(w.script, |chunks| - i);
    if i == |chunks| || !Answer(w.script) {
      assert k == 0;
      assert chunks[i..i + k] == [];
    } else {
      var next := ChunkSent(c, w, chatId, chunks, i);
      ChunksDelivered(c, next, chatId, chunks, i + 1);
      var k' := Succeeding(next.script, |chunks| - (i + 1));
      assert k == 1 + k';
      assert chunks[i..i + k] == [chunks[i]] + chunks[i + 1..i + 1 + k'];
      TextsAppend(chatId, [chunks[i]], chunks[i + 1..i + 1 + k']);
      assert Texts(chatId, [chunks[i]]) == [Outbound(chatId, Text(chunks[i]))];
    }
  }

  /** The chunk loop consumes one outcome per call it makes: every chunk's
      when none throws, else up to and including the one that throws. */
  lemma {:induction false} ChunksScript(c: Config, w: Wire, chatId: string, chunks: seq<string>, i: nat)
    requires i <= |chunks|
    ensures ChunksFrom(c, w, chatId, chunks, i).wire.script
         == Drop(w.script, if Succeeding(w.script, |chunks| - i) == |chunks| - i then |chunks| - i
                           else Succeeding(w.script, |chunks| - i) + 1)
    decreases |chunks| - i
  {
    if i < |chunks| && Answer(w.script) {
      ChunksScript(c, ChunkSent(c, w, chatId, chunks, i), chatId, chunks, i + 1);
    }
  }

  /** The chunk loop leaves the rate-limit entries alone and never turns
      the clock back. */
  lemma {:induction false} ChunksFrame(c: Config, w: Wire, chatId: string, chunks: seq<string>, i: nat)
    requires i <= |chunks|
    ensures ChunksFrom(c, w, chatId, chunks, i).wire.limiter == w.limiter
    ensures ChunksFrom(c, w, chatId, chunks, i).wire.now >= w.now
    decreases |chunks| - i
  {
    if i < |chunks| && Answer(w.script) {
      ChunksFrame(c, ChunkSent(c, w, chatId, chunks, i), chatId, chunks, i + 1);
    }
  }

  /** A pass leaves the rate-limit entries alone, never turns the clock
      back, and delivers to its chat only. */
  lemma PassFrame(c: Config, w: Wire, chatId: string, split: Option<seq<string>>, options: SendOptions)
    ensures Pass(c, w, chatId, split, options).wire.limiter == w.limiter
    ensures Pass(c, w, chatId, split, options).wire.now >= w.now
    ensures OnlyTo(w.delivered, Pass(c, w, chatId, split, options).wire.delivered, chatId)
  {
    var t := TypingStep(c, w, chatId, options);
    assert OnlyTo(w.delivered, t.wire.delivered, chatId);
    if t.ok && split.Some? {
      var chunks := split.value;
      ChunksDelivered(c, t.wire, chatId, chunks, 0);
      ChunksFrame(c, t.wire, chatId, chunks, 0);
      var after := ChunksFrom(c, t.wire, chatId, chunks, 0).wire.delivered;
      assert OnlyTo(t.wire.delivered, after, chatId);
      OnlyToTrans(w.delivered, t.wire.delivered, after, chatId);
    }
  }

  /** The script a pass's chunk loop starts from. */
  function AfterTyping(c: Config, options: SendOptions, outcomes: seq<bool>): seq<bool> {
    if TypingOn(c, options) then Consume(outcomes) else outcomes
  }

  /** A pass goes through exactly when the typing indicator (if enabled)
      goes through, the split does not throw and every chunk goes
      through; it then delivers the transcript and nothing else, and has
      consumed one outcome per call. */
  lemma PassExact(c: Config, w: Wire, chatId: string, split: Option<seq<string>>, options: SendOptions)
    ensures Pass(c, w, chatId, split, options).ok <==>
      && (TypingOn(c, options) ==> Answer(w.script))
      && split.Some?
      && Succeeding(AfterTyping(c, options, w.script), |split.value|) == |split.value|
    ensures Pass(c, w, chatId, split, options).ok ==>
      Pass(c, w, chatId, split, options).wire.delivered == w.delivered + Transcript(c, chatId, options, split.value)
    ensures Pass(c, w, chatId, split, options).ok ==>
      Pass(c, w, chatId, split, options).wire.script == Drop(AfterTyping(c, options, w.script), |split.value|)
  {
    var t := TypingStep(c, w, chatId, options);
    if t.ok {
      assert t.wire.script == AfterTyping(c, options, w.script);
      if split.Some? {
        var chunks := split.value;
        ChunksOk(c, t.wire, chatId, chunks, 0);
        ChunksDelivered(c, t.wire, chatId, chunks, 0);
        ChunksScript(c, t.wire, chatId, chunks, 0);
        assert chunks[0..|chunks|] == chunks;
      }
    }
  }

  /** Over a transport that never throws, a pass goes through exactly when
      the split does not throw, and leaves the script empty. */
  lemma CleanPass(c: Config, w: Wire, chatId: string, split: Option<seq<string>>, options: SendOptions)
    requires w.script == []
    ensures Pass(c, w, chatId, split, options).ok <==> split.Some?
    ensures Pass(c, w, chatId, split, options).wire.script == []
  {
    PassExact(c, w, chatId, split, options);
    if split.Some? {
      CleanScript(|split.value|);
    }
  }

  /** The most passes `sendMessage` can make with these options. */
  function MaxAttempts(c: Config, options: SendOptions): nat {
    if options.retry && options.retryCount < c.maxRetries
    then 1 + c.maxRetries - options.retryCount
    else 1
  }

  /** `sendMessage` makes at least one pass and at most `MaxAttempts`;
      with `retry` off (as for drained text items) exactly one. */
  lemma {:induction false} SendPasses(c: Config, w: Wire, chatId: string, split: Option<seq<string>>, options: SendOptions)
    ensures 1 <= MessageSend(c, w, chatId, split, options).passes <= MaxAttempts(c, options)
    ensures !options.retry ==> MessageSend(c, w, chatId, split, options).passes == 1
    decreases if options.retryCount <= c.maxRetries then c.maxRetries - options.retryCount else 0
  {
    var a := Admit(c, w, chatId);
    if a.ok {
      var p := Pass(c, a.wire, chatId, split, options);
      if !p.ok && options.retry && options.retryCount < c.maxRetries {
        SendPasses(c, Wait(p.wire, c.retryDelay), chatId, split, options.(retryCount := options.retryCount + 1));
      }
    }
  }

  /** A refused rate-limit check is final: nothing is sent, one pass is
      counted, and only the chat's entry is (re)written, with its old
      times. */
  lemma SendRefused(c: Config, w: Wire, chatId: string, split: Option<seq<string>>, options: SendOptions)
    requires c.rateLimiting
    requires !RateLimit.Decide(Stored(w.limiter, chatId), w.now, c.rateLimitPerUser, c.rateLimitWindow).allowed
    ensures !MessageSend(c, w, chatId, split, options).ok
    ensures MessageSend(c, w, chatId, split, options).passes == 1
    ensures MessageSend(c, w, chatId, split, options).wire == w.(limiter := w.limiter[chatId := Stored(w.limiter, chatId)])
  {
  }

  /** A message whose split does not throw, admitted by the rate limiter,
      over a transport that never throws, is sent in one pass and delivers
      its transcript. */
  lemma SendSucceeds(c: Config, w: Wire, chatId: string, split: Option<seq<string>>, options: SendOptions)
    requires Admit(c, w, chatId).ok && w.script == [] && split.Some?
    ensures MessageSend(c, w, chatId, split, options).ok
    ensures MessageSend(c, w, chatId, split, options).passes == 1
    ensures MessageSend(c, w, chatId, split, options).wire.delivered
         == w.delivered + Transcript(c, chatId, options, split.value)
    ensures MessageSend(c, w, chatId, split, options).wire.script == []
    ensures MessageSend(c, w, chatId, split, options).wire.limiter == Admit(c, w, chatId).wire.limiter
  {
    var a := Admit(c, w, chatId);
    CleanPass(c, a.wire, chatId, split, options);
    PassExact(c, a.wire, chatId, split, options);
    PassFrame(c, a.wire, chatId, split, options);
  }

  /** Whatever happens, `sendMessage` delivers to its chat only, touches
      no other chat's rate-limit entry and never turns the clock back; when
      it answers true its transcript is the last thing delivered. */
  lemma {:induction false} SendDelivers(c: Config, w: Wire, chatId: string, split: Option<seq<string>>, options: SendOptions)
    ensures OnlyTo(w.delivered, MessageSend(c, w, chatId, split, options).wire.delivered, chatId)
    ensures MessageSend(c, w, chatId, split, options).wire.limiter - {chatId} == w.limiter - {chatId}
    ensures MessageSend(c, w, chatId, split, options).wire.now >= w.now
    ensures MessageSend(c, w, chatId, split, options).ok ==>
      && split.Some?
      && var d := MessageSend(c, w, chatId, split, options).wire.delivered;
         var t := Transcript(c, chatId, options, split.value);
         |t| <= |d| && d[|d| - |t|..] == t
    decreases if options.retryCount <= c.maxRetries then c.maxRetries - options.retryCount else 0
  {
    var a := Admit(c, w, chatId);
    assert a.wire.delivered == w.delivered && a.wire.now == w.now;
    assert a.wire.limiter - {chatId} == w.limiter - {chatId};
    if a.ok {
      var p := Pass(c, a.wire, chatId, split, options);
      PassFrame(c, a.wire, chatId, split, options);
      if p.ok {
        PassExact(c, a.wire, chatId, split, options);
        var t := Transcript(c, chatId, options, split.value);
        assert p.wire.delivered[|p.wire.delivered| - |t|..] == t;
      } else if options.retry && options.retryCount < c.maxRetries {
        var next := options.(retryCount := options.retryCount + 1);
        var w' := Wait(p.wire, c.retryDelay);
        SendDelivers(c, w', chatId, split, next);
        OnlyToTrans(w.delivered, p.wire.delivered, MessageSend(c, w', chatId, split, next).wire.delivered, chatId);
      }
    }
  }

  /** A retry is a new pass that checks the rate limit again and takes a
      slot of its own: with one message allowed per window, a first pass
      that throws leaves the retry nothing but a refusal. */
  lemma RetryTakesSecondSlot(c: Config, w: Wire, chatId: string, split: Option<seq<string>>, options: SendOptions)
    requires c.rateLimiting && c.rateLimitPerUser == 1 && 1 <= c.retryDelay < c.rateLimitWindow && c.retryDelay <= TimeoutMax
    requires !TypingOn(c, options) && options.retry && options.retryCount == 0 && c.maxRetries >= 1
    requires Stored(w.limiter, chatId) == [] && w.script == [false]
    requires split.Some? && split.value != []
    ensures !MessageSend(c, w, chatId, split, options).ok
    ensures MessageSend(c, w, chatId, split, options).passes == 2
    ensures MessageSend(c, w, chatId, split, options).wire.delivered == w.delivered
  {
    var a := Admit(c, w, chatId);
    assert RateLimit.Recent([], w.now, c.rateLimitWindow) == [];
    assert a.ok && a.wire.limiter[chatId] == [w.now];
    var p := Pass(c, a.wire, chatId, split, options);
    assert !p.ok && p.wire.delivered == w.delivered;
    var w' := Wait(p.wire, c.retryDelay);
    assert Stored(w'.limiter, chatId) == [w.now];
    assert RateLimit.Recent([w.now], w'.now, c.rateLimitWindow) == [w.now] by {
      assert RateLimit.InWindow(w'.now, c.rateLimitWindow)(w.now);
      assert [w.now] == [] + [w.now];
    }
    SendRefused(c, w', chatId, split, options.(retryCount := 1));
  }

  /** The state a retry starts from: the failed pass's state after
      `retryDelay`. */
  function RetryWire(c: Config, w: Wire, chatId: string, split: Option<seq<string>>, options: SendOptions): Wire {
    Wait(Pass(c, Admit(c, w, chatId).wire, chatId, split, options).wire, c.retryDelay)
  }

  /** Every retry is a full new send that begins with its own rate-limit
      check, made later than the first one, against a window that already
      holds the failed pass's time (the slot it used up); the answer and
      the passes of the whole send are those of the retry plus one. A
      retry that the limiter refuses therefore ends the send with false
      after two passes. */
  lemma RetryRechecks(c: Config, w: Wire, chatId: string, split: Option<seq<string>>, options: SendOptions)
    requires Admit(c, w, chatId).ok
    requires !Pass(c, Admit(c, w, chatId).wire, chatId, split, options).ok
    requires options.retry && options.retryCount < c.maxRetries
    ensures RetryWire(c, w, chatId, split, options).now > w.now
    ensures c.rateLimiting ==>
      Stored(RetryWire(c, w, chatId, split, options).limiter, chatId)
        == RateLimit.Recent(Stored(w.limiter, chatId), w.now, c.rateLimitWindow) + [w.now]
    ensures MessageSend(c, w, chatId, split, options).ok
      == MessageSend(c, RetryWire(c, w, chatId, split, options), chatId, split, options.(retryCount := options.retryCount + 1)).ok
    ensures MessageSend(c, w, chatId, split, options).passes
      == 1 + MessageSend(c, RetryWire(c, w, chatId, split, options), chatId, split, options.(retryCount := options.retryCount + 1)).passes
    ensures !Admit(c, RetryWire(c, w, chatId, split, options), chatId).ok ==>
      !MessageSend(c, w, chatId, split, options).ok && MessageSend(c, w, chatId, split, options).passes == 2
  {
    var a := Admit(c, w, chatId);
    PassFrame(c, a.wire, chatId, split, options);
    var w' := RetryWire(c, w, chatId, split, options);
    var next := options.(retryCount := options.retryCount + 1);
    var r := MessageSend(c, w', chatId, split, next);
    assert MessageSend(c, w, chatId, split, options) == Sent(r.ok, 1 + r.passes, r.wire);
    if !Admit(c, w', chatId).ok {
      assert r.passes == 1 && !r.ok;
    }
  }

  /** `sendMedia` makes one rate-limit check and, when admitted, exactly
      one transport call, whatever the media: there is no validation and
      no retry. */
  lemma MediaOneCall(c: Config, w: Wire, chatId: string, media: Media, caption: string)
    ensures !Admit(c, w, chatId).ok ==> MediaSend(c, w, chatId, media, caption) == Admit(c, w, chatId)
    ensures Admit(c, w, chatId).ok ==>
      var r := MediaSend(c, w, chatId, media, caption);
      && r.ok == Answer(w.script)
      && r.wire.script == Consume(w.script)
      && r.wire.delivered == (if r.ok then w.delivered + [Outbound(chatId, Attachment(media, caption))] else w.delivered)
      && r.wire.now == w.now && r.wire.limiter == Admit(c, w, chatId).wire.limiter
  {
  }

  /** The answer of `sendMedia` does not depend on the media. */
  lemma MediaUnvalidated(c: Config, w: Wire, chatId: string, m1: Media, m2: Media, caption: string)
    ensures MediaSend(c, w, chatId, m1, caption).ok == MediaSend(c, w, chatId, m2, caption).ok
    ensures MediaSend(c, w, chatId, m1, caption).wire.script == MediaSend(c, w, chatId, m2, caption).wire.script
  {
  }

  /** The queue is drained first in, first out: draining `a + b` drains
      `a`, then `b`. */
  lemma {:induction false} DrainAppend(c: Config, split: string -> Option<seq<string>>, w: Wire, a: seq<QueuedItem>, b: seq<QueuedItem>)
    ensures Drain(c, split, w, a + b) == Drain(c, split, Drain(c, split, w, a), b)
    decreases |a|
  {
    if a == [] {
      assert a + b == b;
    } else {
      assert (a + b)[1..] == a[1..] + b;
      DrainAppend(c, split, Take(c, split, w, a[0]), a[1..], b);
    }
  }

  /** A queue whose every item is stale is dropped without a send, a
      rate-limit check or a delay. */
  lemma {:induction false} DrainAllStale(c: Config, split: string -> Option<seq<string>>, w: Wire, queue: seq<QueuedItem>)
    requires forall i :: 0 <= i < |queue| ==> Stale(queue[i], w.now)
    ensures Drain(c, split, w, queue) == w
    decreases |queue|
  {
    if queue != [] {
      DrainAllStale(c, split, w, queue[1..]);
    }
  }

  /** An item that is stale when its turn comes is skipped: the drain goes
      on from where it was, as if the item had not been queued. */
  lemma StaleItemSkipped(c: Config, split: string -> Option<seq<string>>, w: Wire, before: seq<QueuedItem>, item: QueuedItem, after: seq<QueuedItem>)
    requires Stale(item, Drain(c, split, w, before).now)
    ensures Drain(c, split, w, before + [item] + after) == Drain(c, split, Drain(c, split, w, before), after)
  {
    DrainAppend(c, split, w, before, [item] + after);
    assert before + [item] + after == before + ([item] + after);
    assert ([item] + after)[1..] == after;
  }

  /** Taking an item off never turns the clock back. */
  lemma TakeTime(c: Config, split: string -> Option<seq<string>>, w: Wire, item: QueuedItem)
    ensures Take(c, split, w, item).now >= w.now
  {
    if !Stale(item, w.now) {
      match item
      case TextItem(chatId, message, options, _) =>
        SendDelivers(c, w, chatId, split(message), options.(retry := false));
      case MediaItem(_, _, _, _, _) =>
    }
  }

  lemma {:induction false} DrainTime(c: Config, split: string -> Option<seq<string>>, w: Wire, queue: seq<QueuedItem>)
    ensures Drain(c, split, w, queue).now >= w.now
    decreases |queue|
  {
    if queue != [] {
      TakeTime(c, split, w, queue[0]);
      DrainTime(c, split, Take(c, split, w, queue[0]), queue[1..]);
    }
  }

  /** What a fresh item delivers over a clean transport. */
  function ItemDeliveries(c: Config, split: string -> Option<seq<string>>, item: QueuedItem): seq<Outbound> {
    match item
    case TextItem(chatId, message, options, _) =>
      (match split(message)
       case Some(chunks) => Transcript(c, chatId, options, chunks)
       case None => [])
    case MediaItem(chatId, media, caption, _, _) => [Outbound(chatId, Attachment(media, caption))]
  }

  /** The deliveries of a queue of fresh items, in queue order. */
  function Deliveries(c: Config, split: string -> Option<seq<string>>, queue: seq<QueuedItem>): seq<Outbound>
    decreases |queue|
  {
    if queue == [] then [] else ItemDeliveries(c, split, queue[0]) + Deliveries(c, split, queue[1..])
  }

  /** With rate limiting off, a clean transport and a splittable text, a
      fresh item delivers its transcript or attachment. */
  lemma TakeClean(c: Config, split: string -> Option<seq<string>>, w: Wire, item: QueuedItem)
    requires !c.rateLimiting && w.script == [] && !Stale(item, w.now)
    requires item.TextItem? ==> split(item.message).Some?
    ensures Take(c, split, w, item).delivered == w.delivered + ItemDeliveries(c, split, item)
    ensures Take(c, split, w, item).script == [] && Take(c, split, w, item).limiter == w.limiter
  {
    match item
    case TextItem(chatId, message, options, _) =>
      SendSucceeds(c, w, chatId, split(message), options.(retry := false));
    case MediaItem(_, _, _, _, _) =>
  }

  /** With rate limiting off and a transport that never throws, a drain
      whose items are all still fresh when it ends delivers every item's
      transcript or attachment, in queue order, and nothing else. */
  lemma {:induction false} DrainDeliversAll(c: Config, split: string -> Option<seq<string>>, w: Wire, queue: seq<QueuedItem>)
    requires !c.rateLimiting && w.script == []
    requires forall i :: 0 <= i < |queue| ==> !Stale(queue[i], Drain(c, split, w, queue).now)
    requires forall i :: 0 <= i < |queue| && queue[i].TextItem? ==> split(queue[i].message).Some?
    ensures Drain(c, split, w, queue).delivered == w.delivered + Deliveries(c, split, queue)
    ensures Drain(c, split, w, queue).script == [] && Drain(c, split, w, queue).limiter == w.limiter
    decreases |queue|
  {
    if queue != [] {
      var w' := Take(c, split, w, queue[0]);
      DrainTime(c, split, w', queue[1..]);
      TakeTime(c, split, w, queue[0]);
      assert !Stale(queue[0], Drain(c, split, w, queue).now);
      TakeClean(c, split, w, queue[0]);
      forall i | 0 <= i < |queue[1..]|
        ensures !Stale(queue[1..][i], Drain(c, split, w', queue[1..]).now)
        ensures queue[1..][i].TextItem? ==> split(queue[1..][i].message).Some?
      {
        assert queue[1..][i] == queue[i + 1];
      }
      DrainDeliversAll(c, split, w', queue[1..]);
      assert Drain(c, split, w, queue) == Drain(c, split, w', queue[1..]);
      assert Deliveries(c, split, queue) == ItemDeliveries(c, split, queue[0]) + Deliveries(c, split, queue[1..]);
      Seqs.AppendAssoc(w.delivered, ItemDeliveries(c, split, queue[0]), Deliveries(c, split, queue[1..]));
    }
  }
}
