/** The song-generation endpoint (POST of src/app/api/generate-song/route.ts)
    as a transition of the three tables it reads and writes. The provider's
    reply, the clock readings and the ids the database assigns to new rows
    are parameters. */
module GenerateSongRoute {
  import opened Wrappers
  import opened JsText
  import opened Types
  import opened RateLimit
  import opened Suno
  import opened Validators

  /** The request body: not JSON, or JSON whose `cardId` is a string or
      absent. */
  datatype Body = Malformed | Json(cardId: Option<string>)

  /** The parts of the request the handler reads. */
  datatype Request = Request(forwardedFor: Option<string>, realIp: Option<string>, body: Body)

  /** What the endpoint answers. */
  datatype Response =
    | RateLimited(remaining: int, resetAt: int)  // 429
    | InvalidCardId                              // 400
    | CardNotFound                               // 404
    | AlreadyGenerated(songUrl: string)          // 200
    | LyricsMissing                              // 400
    | Processing(jobId: string)                  // 200
    | GenerationFailed                           // 500

  const FallbackPrompt := "upbeat pop, birthday song, celebratory"

  /** `MUSIC_STYLES[card.music_style]?.sunoPrompt || fallback`: the entry's
      prompt when the table has the key and the prompt is not empty, the
      fallback otherwise; never empty. */
  function StylePrompt(musicStyle: string): (p: string)
    ensures var e := LookupStyle(musicStyle);
      && (e.Some? && e.value.sunoPrompt != "" ==> p == e.value.sunoPrompt)
      && (e.None? || e.value.sunoPrompt == "" ==> p == FallbackPrompt)
    ensures p != ""
  {
    match LookupStyle(musicStyle)
    case Some(style) => if style.sunoPrompt != "" then style.sunoPrompt else FallbackPrompt
    case None => FallbackPrompt
  }

  /** The parameters the handler passes to `generateCustomSong`. */
  function SongParamsFor(card: Card): (p: SongParams)
    requires card.lyrics.Some?
    ensures p.prompt == card.lyrics.value && p.tags == StylePrompt(card.musicStyle)
    ensures p.title == "Happy Birthday " + card.recipientName && p.makeInstrumental.None?
  {
    SongParams(card.lyrics.value, StylePrompt(card.musicStyle), "Happy Birthday " + card.recipientName, None)
  }

  /** `requestSchema`: a JSON object whose `cardId` is a UUID. */
  predicate CardIdAccepted(body: Body)
  {
    body.Json? && body.cardId.Some? && IsUuid(body.cardId.value)
  }

  /** The id `POST /api/cards` gives a card (`nanoid(21)`) is never accepted
      here. */
  lemma CreatedCardIdsRejected(id: string)
    requires |id| == 21
    ensures !CardIdAccepted(Json(Some(id)))
  {
    NanoidCardIdIsNoUuid(id);
  }

  /** `update({ song_status }).eq('id', id)`: no row changes when none has
      that id. */
  function WithStatus(cards: map<string, Card>, id: string, status: SongStatus): (r: map<string, Card>)
    ensures r.Keys == cards.Keys
    ensures id in cards ==> r[id] == cards[id].(songStatus := status)
    ensures forall k :: k in cards && k != id ==> r[k] == cards[k]
  {
    if id in cards then cards[id := cards[id].(songStatus := status)] else cards
  }

  // ---- The catch block ----

  /** `request.clone().json()`: cloning a request whose body has been read
      throws (`None`); otherwise the body is parsed again. */
  function CloneJson(body: Body, bodyUsed: bool): (r: Option<Body>)
    ensures bodyUsed ==> r.None?
    ensures !bodyUsed && body.Json? ==> r == Some(body)
  {
    if bodyUsed || body.Malformed? then None else Some(body)
  }

  /** The cleanup as written: re-read the body and mark the card failed.
      Every error the handler can meet happens once `request.json()` has
      read the body, so `bodyUsed` holds whenever this runs. */
  function CleanupAsWritten(cards: map<string, Card>, body: Body, bodyUsed: bool): map<string, Card>
  {
    match CloneJson(body, bodyUsed)
    case Some(Json(cardId)) => if Truthy(cardId) then WithStatus(cards, cardId.value, Failed) else cards
    case _ => cards
  }

  /** A failed provider call leaves the card "generating_song" for good:
      the cleanup never gets the card id back. */
  lemma CleanupAsWrittenNeverMarksFailed(cards: map<string, Card>, cardId: string)
    requires cardId in cards
    ensures var during := WithStatus(cards, cardId, GeneratingSong);
      var after := CleanupAsWritten(during, Json(Some(cardId)), true);
      cardId in after && after[cardId].songStatus == GeneratingSong
  {
  }

  /** The cleanup as intended: the card named by the body read before the
      error is marked failed. */
  function RecoverFromError(cards: map<string, Card>, body: Body): (r: map<string, Card>)
    ensures r.Keys == cards.Keys
    ensures body.Json? && Truthy(body.cardId) && body.cardId.value in cards ==>
      r[body.cardId.value] == cards[body.cardId.value].(songStatus := Failed)
    ensures forall k :: k in cards && !(body.Json? && body.cardId == Some(k)) ==> r[k] == cards[k]
  {
    if body.Json? && Truthy(body.cardId) then WithStatus(cards, body.cardId.value, Failed) else cards
  }

  /** The `cards`, `generation_jobs` and `rate_limits` tables. */
  datatype Tables = Tables(cards: map<string, Card>, jobs: seq<GenerationJob>, rateLimits: seq<Types.RateLimit>)

  /** The tables after a request, the answer, and the body posted to the
      provider, if any. */
  datatype Outcome = Outcome(tables: Tables, resp: Response, sent: Option<SongRequest>)

  /** The steps of the handler, in order: rate check, body, validation, card
      lookup, existing song, lyrics, then the provider call and the three
      writes that follow it, or, when the call fails, the cleanup as written,
      which runs after `request.json()` has read the body. The rate
      check reads the clock as `now`, the increment as `later`; the database
      names a new job row `jobRowId` (stamped `stamp`) and a new rate-limit
      row `rateRowId`. */
  function PostOutcome(t: Tables, request: Request, now: int, later: int, provider: Exchange,
                       jobRowId: string, rateRowId: string, stamp: string): (o: Outcome)
    ensures o.tables.cards.Keys == t.cards.Keys
    ensures !o.resp.Processing? ==> o.tables.jobs == t.jobs && o.tables.rateLimits == t.rateLimits
    ensures o.sent.Some? <==> o.resp.Processing? || (o.resp == GenerationFailed && request.body.Json?)
  {
    var ip := GetClientIp(request.forwardedFor, request.realIp);
    var decision := CheckRateLimit(t.rateLimits, ip, GenerateSongAction, now);
    if decision.limited then Outcome(t, RateLimited(decision.remaining, decision.resetAt), None)
    else if request.body.Malformed? then Outcome(t, GenerationFailed, None)
    else if !CardIdAccepted(request.body) then Outcome(t, InvalidCardId, None)
    else
      var id := request.body.cardId.value;
      if id !in t.cards then Outcome(t, CardNotFound, None)
      else
        var card := t.cards[id];
        if Truthy(card.songUrl) then Outcome(t, AlreadyGenerated(card.songUrl.value), None)
        else if !Truthy(card.lyrics) then Outcome(t, LyricsMissing, None)
        else
          var sent := Some(RequestBody(SongParamsFor(card)));
          var generating := WithStatus(t.cards, id, GeneratingSong);
          match GenerateCustomSong(provider)
          case Failure(_) =>
            Outcome(t.(cards := CleanupAsWritten(generating, request.body, true)), GenerationFailed, sent)
          case Success(reply) =>
            Outcome(
              Tables(
                generating[id := generating[id].(sunoJobId := Some(reply.id))],
                t.jobs + [GenerationJob(jobRowId, id, reply.id, JobProcessing, None, None, stamp, stamp)],
                AfterIncrement(t.rateLimits, ip, GenerateSongAction, later, rateRowId)),
              Processing(reply.id), sent)
  }

  /** The rate check comes first: a limited client gets 429 with the
      check's figures, and nothing is read beyond the rate table, written or
      sent. */
  lemma RateLimitComesFirst(t: Tables, request: Request, now: int, later: int, provider: Exchange,
                            jobRowId: string, rateRowId: string, stamp: string)
    requires CheckRateLimit(t.rateLimits, GetClientIp(request.forwardedFor, request.realIp), GenerateSongAction, now).limited
    ensures var d := CheckRateLimit(t.rateLimits, GetClientIp(request.forwardedFor, request.realIp), GenerateSongAction, now);
      PostOutcome(t, request, now, later, provider, jobRowId, rateRowId, stamp) == Outcome(t, RateLimited(d.remaining, d.resetAt), None)
    ensures forall t': Tables :: t'.rateLimits == t.rateLimits ==>
      PostOutcome(t', request, now, later, provider, jobRowId, rateRowId, stamp).resp
      == PostOutcome(t, request, now, later, provider, jobRowId, rateRowId, stamp).resp
  {
  }

  /** After the rate check the answer is decided by the first check that
      fails: the body, the card id, the card, an existing song, the lyrics. */
  lemma ChecksInOrder(t: Tables, request: Request, now: int, later: int, provider: Exchange,
                      jobRowId: string, rateRowId: string, stamp: string)
    requires !CheckRateLimit(t.rateLimits, GetClientIp(request.forwardedFor, request.realIp), GenerateSongAction, now).limited
    ensures var o := PostOutcome(t, request, now, later, provider, jobRowId, rateRowId, stamp);
      && (request.body.Malformed? ==> o == Outcome(t, GenerationFailed, None))
      && (request.body.Json? && !CardIdAccepted(request.body) ==> o == Outcome(t, InvalidCardId, None))
      && (CardIdAccepted(request.body) ==>
            var id := request.body.cardId.value;
            && (id !in t.cards ==> o == Outcome(t, CardNotFound, None))
            && (id in t.cards && Truthy(t.cards[id].songUrl) ==>
                  o == Outcome(t, AlreadyGenerated(t.cards[id].songUrl.value), None))
            && (id in t.cards && !Truthy(t.cards[id].songUrl) && !Truthy(t.cards[id].lyrics) ==>
                  o == Outcome(t, LyricsMissing, None)))
  {
  }

  /** A card that passes every check is sent to the provider with its
      lyrics, its style's prompt and the birthday title. When the provider
      answers, the card is "generating_song" with the provider's job id, one
      "processing" job row is added and the rate counter goes up once; when
      it fails, the cleanup as written cannot re-read the body, so the card
      stays "generating_song", no row is added and the counter stays.
      Nothing else changes in either case. */
  lemma GenerationPath(t: Tables, request: Request, now: int, later: int, provider: Exchange,
                       jobRowId: string, rateRowId: string, stamp: string)
    requires !CheckRateLimit(t.rateLimits, GetClientIp(request.forwardedFor, request.realIp), GenerateSongAction, now).limited
    requires CardIdAccepted(request.body) && request.body.cardId.value in t.cards
    requires !Truthy(t.cards[request.body.cardId.value].songUrl) && Truthy(t.cards[request.body.cardId.value].lyrics)
    ensures var o := PostOutcome(t, request, now, later, provider, jobRowId, rateRowId, stamp);
      var id := request.body.cardId.value;
      var card := t.cards[id];
      && o.sent.Some?
      && o.sent.value.prompt == card.lyrics.value
      && o.sent.value.tags == StylePrompt(card.musicStyle)
      && o.sent.value.title == "Happy Birthday " + card.recipientName
      && !o.sent.value.makeInstrumental
      && o.tables.cards.Keys == t.cards.Keys
      && (forall k :: k in t.cards && k != id ==> o.tables.cards[k] == t.cards[k])
      && (GenerateCustomSong(provider).Success? ==>
            var reply := GenerateCustomSong(provider).value;
            && o.resp == Processing(reply.id)
            && o.tables.cards[id] == card.(songStatus := GeneratingSong, sunoJobId := Some(reply.id))
            && o.tables.jobs == t.jobs + [GenerationJob(jobRowId, id, reply.id, JobProcessing, None, None, stamp, stamp)]
            && o.tables.rateLimits
               == AfterIncrement(t.rateLimits, GetClientIp(request.forwardedFor, request.realIp), GenerateSongAction, later, rateRowId))
      && (GenerateCustomSong(provider).Failure? ==>
            && o.resp == GenerationFailed
            && o.tables.cards[id] == card.(songStatus := GeneratingSong)
            && o.tables.jobs == t.jobs && o.tables.rateLimits == t.rateLimits)
  {
  }

  /** The intended recovery on the same failed call: applied to the tables
      the handler leaves, it marks the card failed, where the cleanup as
      written leaves it "generating_song"; no other card changes. */
  lemma IntendedRecoveryMarksFailed(t: Tables, request: Request, now: int, later: int, provider: Exchange,
                                    jobRowId: string, rateRowId: string, stamp: string)
    requires !CheckRateLimit(t.rateLimits, GetClientIp(request.forwardedFor, request.realIp), GenerateSongAction, now).limited
    requires CardIdAccepted(request.body) && request.body.cardId.value in t.cards
    requires !Truthy(t.cards[request.body.cardId.value].songUrl) && Truthy(t.cards[request.body.cardId.value].lyrics)
    requires GenerateCustomSong(provider).Failure?
    ensures var o := PostOutcome(t, request, now, later, provider, jobRowId, rateRowId, stamp);
      var id := request.body.cardId.value;
      var fixed := RecoverFromError(o.tables.cards, request.body);
      && o.tables.cards[id].songStatus == GeneratingSong
      && fixed[id] == t.cards[id].(songStatus := Failed)
      && (forall k :: k in t.cards && k != id ==> fixed[k] == t.cards[k])
  {
    GenerationPath(t, request, now, later, provider, jobRowId, rateRowId, stamp);
  }

  /** The tables as a class whose handler performs the writes one by one. */
  class SongDatabase {
    var cards: map<string, Card>
    var jobs: seq<GenerationJob>
    var rateLimits: seq<Types.RateLimit>

    constructor (cards: map<string, Card>, jobs: seq<GenerationJob>, rateLimits: seq<Types.RateLimit>)
      ensures this.cards == cards && this.jobs == jobs && this.rateLimits == rateLimits
    {
      this.cards := cards;
      this.jobs := jobs;
      this.rateLimits := rateLimits;
    }

    function Snapshot(): Tables
      reads this
    {
      Tables(cards, jobs, rateLimits)
    }

    /** POST /api/generate-song. `sent` is the body posted to the provider,
        if any. */
    method Post(request: Request, now: int, later: int, provider: Exchange,
                jobRowId: string, rateRowId: string, stamp: string)
      returns (resp: Response, sent: Option<SongRequest>)
      modifies this
      ensures Outcome(Snapshot(), resp, sent)
              == PostOutcome(old(Snapshot()), request, now, later, provider, jobRowId, rateRowId, stamp)
    {
      sent := None;
      var ip := GetClientIp(request.forwardedFor, request.realIp);
      var decision := CheckRateLimit(rateLimits, ip, GenerateSongAction, now);
      if decision.limited {
        return RateLimited(decision.remaining, decision.resetAt), None;
      }
      if request.body.Malformed? {
        // request.json() throws; the catch has no card id to clean up
        return GenerationFailed, None;
      }
      if !CardIdAccepted(request.body) {
        return InvalidCardId, None;
      }
      var cardId := request.body.cardId.value;
      if cardId !in cards {
        return CardNotFound, None;
      }
      var card := cards[cardId];
      if Truthy(card.songUrl) {
        return AlreadyGenerated(card.songUrl.value), None;
      }
      if !Truthy(card.lyrics) {
        return LyricsMissing, None;
      }
      // request.json() has read the body: a clone of the request now throws
      var bodyUsed := true;
      var params := SongParamsFor(card);
      cards := WithStatus(cards, cardId, GeneratingSong);
      sent := Some(RequestBody(params));
      var reply := GenerateCustomSong(provider);
      if reply.Failure? {
        cards := CleanupAsWritten(cards, request.body, bodyUsed);
        return GenerationFailed, sent;
      }
      var jobId := reply.value.id;
      cards := cards[cardId := cards[cardId].(sunoJobId := Some(jobId))];
      jobs := jobs + [GenerationJob(jobRowId, cardId, jobId, JobProcessing, None, None, stamp, stamp)];
      rateLimits := AfterIncrement(rateLimits, ip, GenerateSongAction, later, rateRowId);
      resp := Processing(jobId);
    }
  }
}
