/** The song-provider adapter (src/lib/suno.ts) without its HTTP calls: the
    exchange with the provider is an input, and what is modelled is how the
    request is shaped, how the reply is read and normalised, and the style
    table. */
module Suno {
  import opened Wrappers
  import opened JsText
  import opened Types

  /** A job object in the provider's JSON reply. */
  datatype ProviderJob = ProviderJob(
    id: string,
    status: Option<string>,
    audioUrl: Option<string>,
    imageUrl: Option<string>,
    duration: Option<real>,
    error: Option<string>)

  /** A reply body: one job object, or an array of them. */
  datatype Payload = One(job: ProviderJob) | Many(jobs: seq<ProviderJob>)

  /** One HTTP exchange with the provider: a non-2xx status with its body
      text, or a 2xx reply with its JSON body. */
  datatype Exchange = HttpError(code: int, text: string) | HttpOk(payload: Payload)

  /** Why an adapter call throws: the provider's error status, or a reply
      array with no element (reading a field of `undefined`). */
  datatype SunoError = ApiError(code: int, text: string) | EmptyReply

  /** `Array.isArray(data) ? data[0] : data`. */
  function FirstJob(p: Payload): (r: Option<ProviderJob>)
    ensures p.One? ==> r == Some(p.job)
    ensures p.Many? ==> (r.Some? <==> p.jobs != []) && (r.Some? ==> r.value == p.jobs[0])
  {
    match p
    case One(job) => Some(job)
    case Many(jobs) => if jobs == [] then None else Some(jobs[0])
  }

  predicate ProcessingLike(status: Option<string>)
  {
    status == Some("streaming") || status == Some("processing")
  }

  /** The status chain of `getSongStatus`: processing first, then complete,
      then failed, else pending. */
  function NormaliseStatus(status: Option<string>, audioUrl: Option<string>, error: Option<string>): (r: JobStatus)
    ensures r == JobProcessing <==> ProcessingLike(status)
    ensures r == JobComplete <==> !ProcessingLike(status) && (status == Some("complete") || Truthy(audioUrl))
    ensures r == JobFailed <==>
      !ProcessingLike(status) && status != Some("complete") && !Truthy(audioUrl) && (status == Some("error") || Truthy(error))
    ensures r == JobPending <==>
      !ProcessingLike(status) && status != Some("complete") && !Truthy(audioUrl) && status != Some("error") && !Truthy(error)
  {
    if ProcessingLike(status) then JobProcessing
    else if status == Some("complete") || Truthy(audioUrl) then JobComplete
    else if status == Some("error") || Truthy(error) then JobFailed
    else JobPending
  }

  /** A provider that still reports "streaming" or "processing" is in
      progress even when it already sends an audio URL. */
  lemma ProcessingWinsOverAudio(status: Option<string>, url: string, error: Option<string>)
    requires ProcessingLike(status) && url != ""
    ensures NormaliseStatus(status, Some(url), error) == JobProcessing
  {
  }

  /** What `getSongStatus` returns. */
  datatype JobReport = JobReport(
    id: string,
    status: JobStatus,
    audioUrl: Option<string>,
    imageUrl: Option<string>,
    duration: Option<real>,
    error: Option<string>)

  /** `getSongStatus`, given the exchange its fetch had. */
  function GetSongStatus(exchange: Exchange): (r: Result<JobReport, SunoError>)
    ensures exchange.HttpError? ==> r == Failure(ApiError(exchange.code, exchange.text))
    ensures exchange.HttpOk? && FirstJob(exchange.payload).None? ==> r == Failure(EmptyReply)
    ensures exchange.HttpOk? && FirstJob(exchange.payload).Some? ==>
      var job := FirstJob(exchange.payload).value;
      && r.Success?
      && r.value.id == job.id && r.value.audioUrl == job.audioUrl && r.value.imageUrl == job.imageUrl
      && r.value.duration == job.duration && r.value.error == job.error
      && r.value.status == NormaliseStatus(job.status, job.audioUrl, job.error)
  {
    match exchange
    case HttpError(code, text) => Failure(ApiError(code, text))
    case HttpOk(payload) =>
      match FirstJob(payload)
      case None => Failure(EmptyReply)
      case Some(job) =>
        Success(JobReport(job.id, NormaliseStatus(job.status, job.audioUrl, job.error), job.audioUrl, job.imageUrl, job.duration, job.error))
  }

  /** Only the first job of an array reply matters, and an array holding one
      job reads like that job alone. */
  lemma OnlyFirstJobCounts(job: ProviderJob, rest1: seq<ProviderJob>, rest2: seq<ProviderJob>)
    ensures GetSongStatus(HttpOk(Many([job] + rest1))) == GetSongStatus(HttpOk(Many([job] + rest2)))
    ensures GetSongStatus(HttpOk(Many([job] + rest1))) == GetSongStatus(HttpOk(One(job)))
    ensures GenerateCustomSong(HttpOk(Many([job] + rest1))) == GenerateCustomSong(HttpOk(One(job)))
  {
  }

  /** The parameters of `generateCustomSong`. */
  datatype SongParams = SongParams(prompt: string, tags: string, title: string, makeInstrumental: Option<bool>)

  /** The JSON body posted to the provider. */
  datatype SongRequest = SongRequest(prompt: string, tags: string, title: string, makeInstrumental: bool)

  /** The request body `generateCustomSong` sends; `make_instrumental`
      defaults to false. */
  function RequestBody(params: SongParams): (b: SongRequest)
    ensures b.prompt == params.prompt && b.tags == params.tags && b.title == params.title
    ensures b.makeInstrumental <==> params.makeInstrumental == Some(true)
  {
    SongRequest(params.prompt, params.tags, params.title, params.makeInstrumental.GetOr(false))
  }

  /** What `generateCustomSong` returns. */
  datatype GenerateResponse = GenerateResponse(id: string, status: string, audioUrl: Option<string>, error: Option<string>)

  /** `generateCustomSong`, given the exchange its fetch had. A missing or
      empty status becomes "pending". */
  function GenerateCustomSong(exchange: Exchange): (r: Result<GenerateResponse, SunoError>)
    ensures exchange.HttpError? ==> r == Failure(ApiError(exchange.code, exchange.text))
    ensures exchange.HttpOk? && FirstJob(exchange.payload).None? ==> r == Failure(EmptyReply)
    ensures exchange.HttpOk? && FirstJob(exchange.payload).Some? ==>
      var job := FirstJob(exchange.payload).value;
      && r.Success?
      && r.value.id == job.id && r.value.audioUrl == job.audioUrl && r.value.error == job.error
      && r.value.status != ""
      && (Truthy(job.status) ==> r.value.status == job.status.value)
      && (!Truthy(job.status) ==> r.value.status == "pending")
  {
    match exchange
    case HttpError(code, text) => Failure(ApiError(code, text))
    case HttpOk(payload) =>
      match FirstJob(payload)
      case None => Failure(EmptyReply)
      case Some(job) =>
        var status := if Truthy(job.status) then job.status.value else "pending";
        Success(GenerateResponse(job.id, status, job.audioUrl, job.error))
  }

  /** An entry of `MUSIC_STYLES`. */
  datatype StyleOption = StyleOption(id: string, name: string, icon: string, sunoPrompt: string)

  const UpbeatPopEntry := StyleOption("upbeat_pop", "Upbeat Pop", "\U{1F389}", "upbeat pop, catchy melody, happy vocals, birthday celebration, energetic, fun")
  const AcousticFolkEntry := StyleOption("acoustic_folk", "Acoustic Folk", "\U{1F3B8}", "acoustic folk, warm vocals, guitar, heartfelt, birthday song, intimate")
  const SmoothJazzEntry := StyleOption("smooth_jazz", "Smooth Jazz", "\U{1F3B7}", "smooth jazz, saxophone, piano, sophisticated, birthday celebration, elegant")
  const EdmEntry := StyleOption("edm", "EDM", "\U{1F3A7}", "edm, electronic dance, energetic drops, birthday anthem, party vibes")
  const RnbSoulEntry := StyleOption("rnb_soul", "R&B Soul", "\U{1F49C}", "r&b soul, smooth vocals, emotional, birthday ballad, soulful")
  const ClassicRockEntry := StyleOption("classic_rock", "Classic Rock", "\U{1F3A4}", "classic rock, electric guitar, powerful vocals, birthday rock anthem")
  const HipHopEntry := StyleOption("hip_hop", "Hip Hop", "\U{1F3A4}", "hip hop, rhythmic flow, birthday rap, celebration beat, uplifting")
  const ClassicalEntry := StyleOption("classical", "Classical", "\U{1F3BB}", "classical, orchestral, elegant, birthday waltz, sophisticated melody")

  /** `MUSIC_STYLES[style]`. */
  function StyleInfo(style: MusicStyle): (o: StyleOption)
    ensures o.id == style.Key()
  {
    match style
    case UpbeatPop => UpbeatPopEntry
    case AcousticFolk => AcousticFolkEntry
    case SmoothJazz => SmoothJazzEntry
    case Edm => EdmEntry
    case RnbSoul => RnbSoulEntry
    case ClassicRock => ClassicRockEntry
    case HipHop => HipHopEntry
    case Classical => ClassicalEntry
  }

  /** `MUSIC_STYLES[key]` for an arbitrary key: defined exactly for the
      eight style keys, each entry carrying its own key as `id`. */
  function LookupStyle(key: string): (r: Option<StyleOption>)
    ensures r.Some? <==> ParseMusicStyle(key).Some?
    ensures r.Some? ==> r.value.id == key && r.value == StyleInfo(ParseMusicStyle(key).value)
  {
    match ParseMusicStyle(key)
    case Some(style) => Some(StyleInfo(style))
    case None => None
  }

  /** The table has exactly eight keys: every style is listed once, and no
      two styles share a key. */
  lemma EightStyles()
    ensures |AllMusicStyles| == 8
    ensures forall s: MusicStyle :: s in AllMusicStyles
    ensures forall i, j :: 0 <= i < j < |AllMusicStyles| ==> AllMusicStyles[i].Key() != AllMusicStyles[j].Key()
  {
    forall s: MusicStyle ensures s in AllMusicStyles {
      match s
      case UpbeatPop => assert AllMusicStyles[0] == s;
      case AcousticFolk => assert AllMusicStyles[1] == s;
      case SmoothJazz => assert AllMusicStyles[2] == s;
      case Edm => assert AllMusicStyles[3] == s;
      case RnbSoul => assert AllMusicStyles[4] == s;
      case ClassicRock => assert AllMusicStyles[5] == s;
      case HipHop => assert AllMusicStyles[6] == s;
      case Classical => assert AllMusicStyles[7] == s;
    }
  }
}
