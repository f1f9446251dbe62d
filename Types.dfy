/** The records and enumerations shared by the store, the adapters and the
    route handlers. Field names follow Dafny's lowerCamelCase; each stands
    for the snake_case column of the same name (`shareId` is `share_id`). */
module Types {
  import opened Wrappers

  /** Stage of a card's song pipeline. */
  datatype SongStatus = Pending | GeneratingLyrics | GeneratingSong | Complete | Failed
  {
    function Key(): string
    {
      match this
      case Pending => "pending"
      case GeneratingLyrics => "generating_lyrics"
      case GeneratingSong => "generating_song"
      case Complete => "complete"
      case Failed => "failed"
    }
  }

  /** The eight music styles. */
  datatype MusicStyle = UpbeatPop | AcousticFolk | SmoothJazz | Edm | RnbSoul | ClassicRock | HipHop | Classical
  {
    function Key(): string
    {
      match this
      case UpbeatPop => "upbeat_pop"
      case AcousticFolk => "acoustic_folk"
      case SmoothJazz => "smooth_jazz"
      case Edm => "edm"
      case RnbSoul => "rnb_soul"
      case ClassicRock => "classic_rock"
      case HipHop => "hip_hop"
      case Classical => "classical"
    }
  }

  const AllMusicStyles: seq<MusicStyle> :=
    [UpbeatPop, AcousticFolk, SmoothJazz, Edm, RnbSoul, ClassicRock, HipHop, Classical]

  /** The music style whose key is `key`, if any. */
  function ParseMusicStyle(key: string): (r: Option<MusicStyle>)
    ensures r.Some? ==> r.value.Key() == key
    ensures forall s: MusicStyle :: s.Key() == key ==> r == Some(s)
  {
    match key
    case "upbeat_pop" => Some(UpbeatPop)
    case "acoustic_folk" => Some(AcousticFolk)
    case "smooth_jazz" => Some(SmoothJazz)
    case "edm" => Some(Edm)
    case "rnb_soul" => Some(RnbSoul)
    case "classic_rock" => Some(ClassicRock)
    case "hip_hop" => Some(HipHop)
    case "classical" => Some(Classical)
    case _ => None
  }

  /** The six card themes of the record type (the theme picker offers more;
      see Validators.UiThemeKeys). */
  datatype ThemeId = Classic | Modern | Playful | Elegant | Retro | Nature
  {
    function Key(): string
    {
      match this
      case Classic => "classic"
      case Modern => "modern"
      case Playful => "playful"
      case Elegant => "elegant"
      case Retro => "retro"
      case Nature => "nature"
    }
  }

  const AllThemes: seq<ThemeId> := [Classic, Modern, Playful, Elegant, Retro, Nature]

  /** The theme whose key is `key`, if any. */
  function ParseThemeId(key: string): (r: Option<ThemeId>)
    ensures r.Some? ==> r.value.Key() == key
    ensures forall t: ThemeId :: t.Key() == key ==> r == Some(t)
  {
    match key
    case "classic" => Some(Classic)
    case "modern" => Some(Modern)
    case "playful" => Some(Playful)
    case "elegant" => Some(Elegant)
    case "retro" => Some(Retro)
    case "nature" => Some(Nature)
    case _ => None
  }

  /** Status of a song-generation job, also the provider's normalised status. */
  datatype JobStatus = JobPending | JobProcessing | JobComplete | JobFailed
  {
    function Key(): string
    {
      match this
      case JobPending => "pending"
      case JobProcessing => "processing"
      case JobComplete => "complete"
      case JobFailed => "failed"
    }
  }

  /** A card record. `musicStyle` and `themeId` hold the style and theme
      keys as text: the database the song route reads does not enforce the
      enumerations, and the route handles an unknown style. */
  datatype Card = Card(
    id: string,
    shareId: string,
    recipientName: string,
    personalityTraits: seq<string>,
    interests: seq<string>,
    relationship: string,
    musicStyle: string,
    themeId: string,
    customMessage: string,
    senderName: string,
    senderEmail: Option<string>,
    sunoJobId: Option<string>,
    songStatus: SongStatus,
    songUrl: Option<string>,
    lyrics: Option<string>,
    createdAt: string,
    updatedAt: string)

  /** A row of the generation_jobs table. */
  datatype GenerationJob = GenerationJob(
    id: string,
    cardId: string,
    sunoJobId: string,
    status: JobStatus,
    progress: Option<int>,
    errorMessage: Option<string>,
    createdAt: string,
    updatedAt: string)

  /** The four rate-limited actions. */
  datatype ActionType = CreateCardAction | GenerateLyricsAction | GenerateSongAction | SendEmailAction

  /** A row of the rate_limits table; `windowStart` in milliseconds since the epoch. */
  datatype RateLimit = RateLimit(id: string, ipAddress: string, action: ActionType, count: int, windowStart: int)
}
