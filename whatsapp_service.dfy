/** The delivery and connection layer of src/services/whatsappService.js:
    the service object with its readiness flag and counters, the per-chat
    rate limiter, the queue of messages held back while the client is not
    ready, the bounded retry of `sendMessage`, and media validation.

    The WhatsApp client is a transport that either delivers an outgoing
    item or throws; which one happens is scripted by its `outcomes`. Time
    is the service's `now`, advanced by the pacing delays. */
module WhatsApp {
  import opened Wrappers
  import opened JsString
  import opened WhatsAppConfig
  import MessageSplit
  import RateLimit
  import Helpers
  import opened Delivery

  /** The transport. Each call consumes the next scripted outcome (an
      exhausted script means success); a successful call is logged. */
  class Client {
    var outcomes: seq<bool>
    var delivered: seq<Outbound>

    constructor(outcomes: seq<bool>)
      ensures this.outcomes == outcomes && delivered == []
    {
      this.outcomes := outcomes;
      delivered := [];
    }

    /** `client.sendMessage(chatId, content)` or `chat.sendStateTyping()`;
      `ok` false stands for the call throwing. */
    method Send(chatId: string, content: Content) returns (ok: bool)
      modifies this
      ensures ok == Answer(old(outcomes)) && outcomes == Consume(old(outcomes))
      ensures delivered == if ok then old(delivered) + [Outbound(chatId, content)] else old(delivered)
    {
      if outcomes == [] {
        ok := true;
      } else {
        ok := outcomes[0];
        outcomes := outcomes[1..];
      }
      if ok {
        delivered := delivered + [Outbound(chatId, content)];
      }
    }
  }

  /** What `message` carries for `downloadMedia`: whether it has media,
      and what `downloadMedia()` yields (`None` for nothing or a throw). */
  datatype IncomingMessage = IncomingMessage(hasMedia: bool, download: Option<Media>)

  class WhatsAppService {
    const config: Config
    const client: Client
    const maxReconnectAttempts: nat := 5

    var isReady: bool
    var qrRetries: nat
    var reconnectAttempts: nat
    var rateLimiter: map<string, seq<int>>
    var messageQueue: seq<QueuedItem>
    var isProcessingQueue: bool
    /** `Date.now()`. */
    var now: int
    /** The calls to `restart()` made so far. */
    var restartRequests: nat

    /** The reconnection counter never passes its maximum. */
    ghost predicate Valid()
      reads this
    {
      reconnectAttempts <= maxReconnectAttempts
    }

    /** The part of the state the delivery path reads and changes. */
    ghost function WireOf(): Wire
      reads this, client
    {
      Wire(rateLimiter, now, client.outcomes, client.delivered)
    }

    constructor(config: Config, client: Client, startTime: int)
      ensures this.config == config && this.client == client && now == startTime
      ensures !isReady && qrRetries == 0 && reconnectAttempts == 0
      ensures rateLimiter == map[] && messageQueue == [] && !isProcessingQueue
      ensures restartRequests == 0
      ensures Valid()
    {
      this.config := config;
      this.client := client;
      isReady := false;
      qrRetries := 0;
      reconnectAttempts := 0;
      rateLimiter := map[];
      messageQueue := [];
      isProcessingQueue := false;
      now := startTime;
      restartRequests := 0;
    }

    /** `delay(ms)`: time moves on as long as Node.js waits for `ms`
        (`None` for a delay that is not a number). */
    method Delay(ms: Option<int>)
      modifies this`now
      ensures now == old(now) + TimerWait(ms)
    {
      now := now + TimerWait(ms);
    }

    // -------------------------------------------------------------------
    // Lifecycle events

    /** The `qr` event: one more QR code, compared with
        `config.client.qrCodeRetries`. That setting is never set, and a
        comparison with `undefined` is false: the client is never
        restarted from here. */
    method OnQr()
      modifies this`qrRetries, this`restartRequests
      ensures qrRetries == old(qrRetries) + 1
      ensures restartRequests == old(restartRequests)
    {
      qrRetries := qrRetries + 1;
      restartRequests := restartRequests + if Exceeds(qrRetries, GetClientConfig().qrCodeRetries) then 1 else 0;
    }

    /** The `qr` event as evidently intended, against the configured
        `qrCodeRetries`: past that many QR codes the client is restarted. */
    method OnQrIntended()
      modifies this`qrRetries, this`restartRequests
      ensures qrRetries == old(qrRetries) + 1
      ensures restartRequests == old(restartRequests) + (if qrRetries > config.qrCodeRetries then 1 else 0)
    {
      qrRetries := qrRetries + 1;
      if Exceeds(qrRetries, Some(config.qrCodeRetries)) {
        restartRequests := restartRequests + 1;
      }
    }

    /** The `auth_failure` event restarts the client. */
    method OnAuthFailure()
      modifies this`restartRequests
      ensures restartRequests == old(restartRequests) + 1
    {
      restartRequests := restartRequests + 1;
    }

    /** `handleDisconnection`: at most `maxReconnectAttempts`
        reconnections. The wait before each is `config.client.restartDelay`
        times the attempt number; that setting is never set, the product is
        not a number, and the timer fires after 1 ms. */
    method HandleDisconnection()
      requires Valid()
      modifies this`reconnectAttempts, this`now, this`restartRequests
      ensures Valid()
      ensures old(reconnectAttempts) >= maxReconnectAttempts ==>
        reconnectAttempts == old(reconnectAttempts) && now == old(now) && restartRequests == old(restartRequests)
      ensures old(reconnectAttempts) < maxReconnectAttempts ==>
        && reconnectAttempts == old(reconnectAttempts) + 1
        && now == old(now) + 1
        && restartRequests == old(restartRequests) + 1
    {
      if reconnectAttempts >= maxReconnectAttempts {
        return;
      }
      reconnectAttempts := reconnectAttempts + 1;
      Delay(Times(GetClientConfig().restartDelay, reconnectAttempts));
      restartRequests := restartRequests + 1;
    }

    /** `handleDisconnection` as evidently intended, with the configured
        `restartDelay`: the n-th reconnection waits `restartDelay * n`. */
    method HandleDisconnectionIntended()
      requires Valid()
      modifies this`reconnectAttempts, this`now, this`restartRequests
      ensures Valid()
      ensures old(reconnectAttempts) >= maxReconnectAttempts ==>
        reconnectAttempts == old(reconnectAttempts) && now == old(now) && restartRequests == old(restartRequests)
      ensures old(reconnectAttempts) < maxReconnectAttempts ==>
        && reconnectAttempts == old(reconnectAttempts) + 1
        && now == old(now) + TimerWait(Some(config.restartDelay * reconnectAttempts))
        && restartRequests == old(restartRequests) + 1
      ensures old(reconnectAttempts) < maxReconnectAttempts && 1 <= config.restartDelay * reconnectAttempts <= TimeoutMax ==>
        now == old(now) + config.restartDelay * reconnectAttempts
    {
      if reconnectAttempts >= maxReconnectAttempts {
        return;
      }
      reconnectAttempts := reconnectAttempts + 1;
      Delay(Times(Some(config.restartDelay), reconnectAttempts));
      restartRequests := restartRequests + 1;
    }

    /** The `disconnected` event: not ready any more, then reconnect. */
    method OnDisconnected()
      requires Valid()
      modifies this`isReady, this`reconnectAttempts, this`now, this`restartRequests
      ensures Valid()
      ensures !isReady
      ensures old(reconnectAttempts) >= maxReconnectAttempts ==>
        reconnectAttempts == old(reconnectAttempts) && now == old(now) && restartRequests == old(restartRequests)
      ensures old(reconnectAttempts) < maxReconnectAttempts ==>
        && reconnectAttempts == old(reconnectAttempts) + 1
        && now == old(now) + 1
        && restartRequests == old(restartRequests) + 1
    {
      isReady := false;
      HandleDisconnection();
    }

    /** `destroy()`: the service is no longer ready. */
    method Destroy()
      modifies this`isReady
      ensures !isReady
    {
      isReady := false;
    }

    // -------------------------------------------------------------------
    // Rate limiting

    /** `checkRateLimit(chatId)`: exactly the decision `Admit` defines
        (with rate limiting off every check passes and nothing is stored;
        otherwise one sliding-window decision replaces the chat's entry). */
    method CheckRateLimit(chatId: string) returns (ok: bool)
      modifies this`rateLimiter
      ensures Step(ok, WireOf()) == Admit(config, old(WireOf()), chatId)
      ensures !config.rateLimiting ==> ok && rateLimiter == old(rateLimiter)
      ensures config.rateLimiting ==>
        var d := RateLimit.Decide(Stored(old(rateLimiter), chatId), now, config.rateLimitPerUser, config.rateLimitWindow);
        ok == d.allowed && rateLimiter == old(rateLimiter)[chatId := d.stored]
    {
      if !config.rateLimiting {
        return true;
      }
      if chatId !in rateLimiter {
        rateLimiter := rateLimiter[chatId := []];
      }
      var userRequests := rateLimiter[chatId];
      var validRequests := RateLimit.Recent(userRequests, now, config.rateLimitWindow);
      if |validRequests| >= config.rateLimitPerUser {
        return false;
      }
      validRequests := validRequests + [now];
      rateLimiter := rateLimiter[chatId := validRequests];
      ok := true;
    }

    // -------------------------------------------------------------------
    // Authorization and media

    /** `isAuthorizedUser`: an empty admin list lets everyone in. */
    function IsAuthorizedUser(phoneNumber: string): (ok: bool)
      ensures config.adminNumbers == [] ==> ok
      ensures config.adminNumbers != [] ==> (ok <==> phoneNumber in config.adminNumbers)
    {
      config.adminNumbers == [] || phoneNumber in config.adminNumbers
    }

    /** `isAuthorizedGroup`: an empty group list lets every group in. */
    function IsAuthorizedGroup(groupId: string): (ok: bool)
      ensures config.allowedGroups == [] ==> ok
      ensures config.allowedGroups != [] ==> (ok <==> groupId in config.allowedGroups)
    {
      config.allowedGroups == [] || groupId in config.allowedGroups
    }

    /** `validateMedia`: the mimetype's subtype is a supported format and
        the data is no larger than `maxFileSize`. */
    function ValidateMedia(media: Media): (ok: bool)
      ensures ok ==> media.size <= config.maxFileSize
      ensures ok ==> '/' in media.mimetype
      ensures ok <==> |Split(media.mimetype, '/')| >= 2
                      && Split(media.mimetype, '/')[1] in config.supportedFormats
                      && media.size <= config.maxFileSize
    {
      if '/' !in media.mimetype then
        SplitNoSeparator(media.mimetype, '/');
        false
      else
        var fields := Split(media.mimetype, '/');
        |fields| >= 2 && fields[1] in config.supportedFormats && media.size <= config.maxFileSize
    }

    /** `downloadMedia`: the downloaded media when the message has some,
        the download yields it, and it validates; otherwise nothing. */
    function DownloadMedia(message: IncomingMessage): (r: Option<Media>)
      ensures r.Some? <==> message.hasMedia && message.download.Some? && ValidateMedia(message.download.value)
      ensures r.Some? ==> r == message.download
    {
      if !message.hasMedia then None
      else if message.download.None? then None
      else if !ValidateMedia(message.download.value) then None
      else message.download
    }

    // -------------------------------------------------------------------
    // Splitting

    /** `splitMessage`: the line loop, computing exactly the split that
        `MessageSplit.SplitMessage` defines (`None` where the source throws). */
    method SplitMessage(message: string) returns (r: Option<seq<string>>)
      ensures r == MessageSplit.SplitMessage(message, config.maxMessageLength)
      ensures |message| <= config.maxMessageLength ==> r == Some([message])
      ensures r.Some? ==> forall i :: 0 <= i < |r.value| ==> |r.value[i]| <= config.maxMessageLength
    {
      var maxLen := config.maxMessageLength;
      if |message| <= maxLen {
        return Some([message]);
      }
      var messages: seq<string> := [];
      var current := "";
      var lines := Split(message, '\n');
      ghost var start := MessageSplit.Chunking([], "");
      var i := 0;
      while i < |lines|
        invariant 0 <= i <= |lines|
        invariant MessageSplit.Fold(start, lines, maxLen)
               == MessageSplit.Fold(MessageSplit.Chunking(messages, current), lines[i..], maxLen)
      {
        ghost var st := MessageSplit.Chunking(messages, current);
        var line := lines[i];
        assert lines[i..][0] == line && lines[i..][1..] == lines[i + 1..];
        if |current + line + "\n"| > maxLen {
          if current != "" {
            messages := messages + [Trim(current)];
            current := "";
          }
          if |line| > maxLen {
            var chunks := MessageSplit.HardSplit(line, maxLen);
            if chunks.None? {
              return None;
            }
            messages := messages + chunks.value;
          } else {
            current := line + "\n";
          }
        } else {
          current := current + line + "\n";
        }
        assert MessageSplit.Step(st, line, maxLen) == Some(MessageSplit.Chunking(messages, current));
        i := i + 1;
      }
      assert lines[i..] == [];
      if Trim(current) != "" {
        messages := messages + [Trim(current)];
      }
      r := Some(messages);
      assert r == MessageSplit.SplitMessage(message, maxLen);
      forall k | 0 <= k < |messages|
        ensures |messages[k]| <= maxLen
      {
        MessageSplit.ChunksFit(message, maxLen, k);
      }
    }
  
    // -------------------------------------------------------------------
    // Sending

    /** The typing indicator of `sendMessage`, when enabled, followed by
        `typingDelay`; false where `sendStateTyping` throws. */
    method SendTyping(chatId: string, options: SendOptions) returns (ok: bool)
      modifies this`now, client
      ensures Step(ok, WireOf()) == TypingStep(config, old(WireOf()), chatId, options)
    {
      ok := true;
      if config.sendTyping && options.typing {
        ok := client.Send(chatId, Typing);
        if ok {
          Delay(Some(config.typingDelay));
        }
      }
    }

    /** The loop of `sendMessage` over the chunks, with `messageDelay`
        between consecutive chunks; it stops at the first send that throws. */
    method SendChunks(chatId: string, chunks: seq<string>) returns (sent: bool)
      modifies this`now, client
      ensures Step(sent, WireOf()) == ChunksFrom(config, old(WireOf()), chatId, chunks, 0)
    {
      var i := 0;
      while i < |chunks|
        invariant 0 <= i <= |chunks|
        invariant ChunksFrom(config, WireOf(), chatId, chunks, i) == ChunksFrom(config, old(WireOf()), chatId, chunks, 0)
      {
        ghost var before := WireOf();
        var ok := client.Send(chatId, Text(chunks[i]));
        assert Step(ok, WireOf()) == Call(before, chatId, Text(chunks[i]));
        if !ok {
          return false;
        }
        if i < |chunks| - 1 {
          Delay(Some(config.messageDelay));
        }
        i := i + 1;
      }
      sent := true;
    }

    /** The split of `sendMessage` and the delivery of its chunks; a split
        that throws sends nothing. */
    method SendSplit(chatId: string, message: string) returns (sent: bool)
      modifies this`now, client
      ensures Step(sent, WireOf()) == SplitStep(config, old(WireOf()), chatId, Splitter(config)(message))
    {
      var messages := SplitMessage(message);
      if messages.None? {
        return false;
      }
      sent := SendChunks(chatId, messages.value);
    }

    /** The body of the `try` in `sendMessage` after the rate-limit check:
        typing indicator, split, chunks with pauses between them. `sent` is
        false where the source throws into the `catch`. */
    method Transmit(chatId: string, message: string, options: SendOptions) returns (sent: bool)
      modifies this`now, client
      ensures Step(sent, WireOf()) == Pass(config, old(WireOf()), chatId, Splitter(config)(message), options)
    {
      var typed := SendTyping(chatId, options);
      if !typed {
        return false;
      }
      sent := SendSplit(chatId, message);
    }

    /** `sendMessage(chatId, message, options)`. Not ready: the message is
        queued with the current time and nothing is sent. Ready: exactly
        what `MessageSend` defines. */
    method SendMessage(chatId: string, message: string, options: SendOptions) returns (ok: bool)
      modifies this`messageQueue, this`rateLimiter, this`now, client
      ensures !isReady ==>
        && !ok
        && messageQueue == old(messageQueue) + [TextItem(chatId, message, options, old(now))]
        && WireOf() == old(WireOf())
      ensures isReady ==>
        && messageQueue == old(messageQueue)
        && var r := MessageSend(config, old(WireOf()), chatId, Splitter(config)(message), options);
           ok == r.ok && WireOf() == r.wire
      decreases if options.retryCount <= config.maxRetries then config.maxRetries - options.retryCount else 0
    {
      if !isReady {
        messageQueue := messageQueue + [TextItem(chatId, message, options, now)];
        return false;
      }
      ghost var w0, split := WireOf(), Splitter(config)(message);
      var admitted := CheckRateLimit(chatId);
      if !admitted {
        return false;
      }
      ghost var w1 := WireOf();
      var sent := Transmit(chatId, message, options);
      assert Step(sent, WireOf()) == Pass(config, w1, chatId, split, options);
      if sent {
        return true;
      }
      if options.retry && options.retryCount < config.maxRetries {
        Delay(Some(config.retryDelay));
        assert WireOf() == Wait(Pass(config, w1, chatId, split, options).wire, config.retryDelay);
        ok := SendMessage(chatId, message, options.(retryCount := options.retryCount + 1));
      } else {
        ok := false;
      }
    }

    /** `sendMedia(chatId, media, caption, options)`. Not ready: queued as
        a media item. Ready: exactly what `MediaSend` defines, one
        rate-limit check and one attempt. */
    method SendMedia(chatId: string, media: Media, caption: string, options: SendOptions) returns (ok: bool)
      modifies this`messageQueue, this`rateLimiter, client
      ensures !isReady ==>
        && !ok
        && messageQueue == old(messageQueue) + [MediaItem(chatId, media, caption, options, now)]
        && WireOf() == old(WireOf())
      ensures isReady ==>
        messageQueue == old(messageQueue) && Step(ok, WireOf()) == MediaSend(config, old(WireOf()), chatId, media, caption)
    {
      if !isReady {
        messageQueue := messageQueue + [MediaItem(chatId, media, caption, options, now)];
        return false;
      }
      var admitted := CheckRateLimit(chatId);
      if !admitted {
        return false;
      }
      ok := client.Send(chatId, Attachment(media, caption));
    }

    // -------------------------------------------------------------------
    // The queue

    /** `processMessageQueue`. Nothing happens while a drain is running or
        the client is not ready. Otherwise the queue is emptied from the
        head exactly as `Drain` defines, and the flag is cleared. */
    method ProcessMessageQueue()
      modifies this`messageQueue, this`isProcessingQueue, this`rateLimiter, this`now, client
      ensures old(isProcessingQueue) || !isReady ==>
        && messageQueue == old(messageQueue) && isProcessingQueue == old(isProcessingQueue)
        && WireOf() == old(WireOf())
      ensures !old(isProcessingQueue) && isReady ==>
        && messageQueue == [] && !isProcessingQueue
        && WireOf() == Drain(config, Splitter(config), old(WireOf()), old(messageQueue))
    {
      if isProcessingQueue || !isReady {
        return;
      }
      isProcessingQueue := true;
      while messageQueue != []
        invariant Drain(config, Splitter(config), WireOf(), messageQueue) == Drain(config, Splitter(config), old(WireOf()), old(messageQueue))
        decreases |messageQueue|
      {
        ghost var before := WireOf();
        var item := messageQueue[0];
        messageQueue := messageQueue[1..];
        if now - item.timestamp > StaleAfter {
        } else {
          if item.MediaItem? {
            var _ := SendMedia(item.chatId, item.media, item.caption, item.options);
          } else {
            var _ := SendMessage(item.chatId, item.message, item.options.(retry := false));
          }
          Delay(Some(config.messageDelay));
        }
        assert WireOf() == Take(config, Splitter(config), before, item);
      }
      isProcessingQueue := false;
    }

    /** The `ready` event: ready, both counters back to zero, and the queue
        is drained. */
    method OnReady()
      modifies this`isReady, this`qrRetries, this`reconnectAttempts,
               this`messageQueue, this`isProcessingQueue, this`rateLimiter, this`now, client
      ensures isReady && qrRetries == 0 && reconnectAttempts == 0 && Valid()
      ensures !old(isProcessingQueue) ==>
        && messageQueue == [] && !isProcessingQueue
        && WireOf() == Drain(config, Splitter(config), old(WireOf()), old(messageQueue))
      ensures old(isProcessingQueue) ==>
        messageQueue == old(messageQueue) && isProcessingQueue == old(isProcessingQueue) && WireOf() == old(WireOf())
    {
      isReady := true;
      qrRetries := 0;
      reconnectAttempts := 0;
      ProcessMessageQueue();
    }
  }

  /** The QR limit is never reached as written: `config.client` has no
      `qrCodeRetries`, so no count exceeds it, not even the fourth QR code
      that passes the configured default of 3. */
  lemma QrLimitUnset(n: int)
    ensures !Exceeds(n, GetClientConfig().qrCodeRetries)
    ensures n > DefaultConfig().qrCodeRetries <==> Exceeds(n, Some(DefaultConfig().qrCodeRetries))
  {
  }

  /** The reconnection wait as written is 1 ms for every attempt, where
      the configured default would wait 5000 ms times the attempt number. */
  lemma ReconnectWaitUnset(n: nat)
    ensures TimerWait(Times(GetClientConfig().restartDelay, n)) == 1
    ensures 1 <= n <= 5 ==> TimerWait(Times(Some(DefaultConfig().restartDelay), n)) == 5000 * n
  {
  }

  /** Under the default configuration the service's media check agrees
      with the image-format helper with no `SUPPORTED_FORMATS` set, plus
      the 5 MB size bound. */
  lemma DefaultMediaRules(service: WhatsAppService, media: Media)
    requires service.config == DefaultConfig()
    ensures service.ValidateMedia(media) <==>
      Helpers.IsValidImageFormat(media.mimetype, None) && media.size <= 5242880
  {
    Helpers.DefaultFormats();
  }

  /** With the group list read from `ALLOWED_GROUPS`, a group is let in
      exactly when some comma-separated segment of the variable trims to
      its id, or when no segment names any group. */
  lemma GroupsFromEnvironment(service: WhatsAppService, env: string, groupId: string)
    requires service.config.allowedGroups == ParseGroupIds(Some(env))
    ensures ParseGroupIds(Some(env)) != [] ==>
      (service.IsAuthorizedGroup(groupId) <==> SegmentYields(env, groupId))
    ensures ParseGroupIds(Some(env)) == [] ==> service.IsAuthorizedGroup(groupId)
  {
    if env != "" {
      GroupIdMembership(env, groupId);
    }
  }

  /** With the admin list read from `ADMIN_NUMBERS`, a local number
      written there (no "+" and no "62" in front) authorizes the sender
      whose number is that entry with "62" in front. */
  lemma LocalAdminNumber(service: WhatsAppService, env: string, k: nat)
    requires service.config.adminNumbers == ParsePhoneNumbers(Some(env))
    requires k < |ParseGroupIds(Some(env))|
    requires !StartsWith(ParseGroupIds(Some(env))[k], "+") && !StartsWith(ParseGroupIds(Some(env))[k], "62")
    ensures service.IsAuthorizedUser("62" + ParseGroupIds(Some(env))[k])
  {
    var entry := ParseGroupIds(Some(env))[k];
    GroupIdsTrimmed(Some(env), k);
    assert entry[..1] == [entry[0]];
    LocalNumberGetsCountryCode(entry);
    assert ParsePhoneNumbers(Some(env))[k] == "62" + entry;
  }
}
