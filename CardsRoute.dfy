/** The card-creation endpoint (POST of src/app/api/cards/route.ts): validate
    the body, build the card record and store it in the card store. The two
    generated ids and the two clock readings are parameters. */
module CardsRoute {
  import opened Wrappers
  import opened Types
  import opened Validators
  import opened MockDb

  /** What the endpoint answers. */
  datatype Response =
    | CardCreated(id: string, shareId: string, status: SongStatus)  // 200
    | ValidationFailed(details: map<string, seq<Message>>)          // 400
    | InternalError                                                 // 500

  /** The card literal the endpoint stores: the validated fields copied one
      to one, an absent custom message stored as "", and the song marked
      complete. */
  function BuildCard(data: CardData, id: string, shareId: string, createdAt: string, updatedAt: string): (c: Card)
    ensures c.id == id && c.shareId == shareId
    ensures c.recipientName == data.recipientName && c.personalityTraits == data.personalityTraits
    ensures c.interests == data.interests && c.relationship == data.relationship
    ensures c.senderName == data.senderName && c.senderEmail == data.senderEmail
    ensures c.songStatus == Complete && c.sunoJobId.None? && c.songUrl.None? && c.lyrics.None?
    ensures c.createdAt == createdAt && c.updatedAt == updatedAt
    ensures data.customMessage.Some? ==> c.customMessage == data.customMessage.value
    ensures data.customMessage.None? ==> c.customMessage == ""
    ensures ParseMusicStyle(c.musicStyle) == Some(data.musicStyle)
    ensures ParseThemeId(c.themeId) == Some(data.themeId)
  {
    Card(
      id, shareId, data.recipientName, data.personalityTraits, data.interests,
      data.relationship, data.musicStyle.Key(), data.themeId.Key(),
      if data.customMessage.Some? && data.customMessage.value != "" then data.customMessage.value else "",
      data.senderName, data.senderEmail, None, Complete, None, None, createdAt, updatedAt)
  }

  /** A stored card read back as a request body. */
  function AsInput(c: Card): CardInput
  {
    CardInput(
      Some(c.recipientName), Some(c.personalityTraits), Some(c.interests), Some(c.relationship),
      Some(c.musicStyle), Some(c.themeId), Some(c.customMessage), Some(c.senderName), c.senderEmail)
  }

  /** A stored card passes the schema again and yields the same data, the
      custom message now being present (the empty text when it was absent,
      which passes unless the filter flags the empty text). */
  lemma StoredCardRevalidates(input: CardInput, id: string, shareId: string, createdAt: string, updatedAt: string,
                              isProfane: string -> bool, isEmail: string -> bool)
    requires ParseCard(input, isProfane, isEmail).Success?
    requires input.customMessage.Some? || !isProfane("")
    ensures var data := ParseCard(input, isProfane, isEmail).value;
      var c := BuildCard(data, id, shareId, createdAt, updatedAt);
      ParseCard(AsInput(c), isProfane, isEmail) == Success(data.(customMessage := Some(c.customMessage)))
  {
    var data := ParseCard(input, isProfane, isEmail).value;
    var c := BuildCard(data, id, shareId, createdAt, updatedAt);
    assert CardAccepted(AsInput(c), isProfane, isEmail);
    var again := ParseCard(AsInput(c), isProfane, isEmail).value;
    assert again.musicStyle == data.musicStyle;
    assert again.themeId == data.themeId;
  }

  /** The store and the answer after one request. `body` is `None` when the
      body is not JSON, which the handler's catch turns into a 500. */
  function PostOutcome(cards: CardMap, body: Option<CardInput>, id: string, shareId: string, createdAt: string,
                       updatedAt: string, isProfane: string -> bool, isEmail: string -> bool): (res: (CardMap, Response))
    ensures body.None? ==> res == (cards, InternalError)
    ensures body.Some? && !CardAccepted(body.value, isProfane, isEmail) ==>
      res == (cards, ValidationFailed(Flatten(CardIssues(body.value, isProfane, isEmail))))
    ensures body.Some? && CardAccepted(body.value, isProfane, isEmail) ==>
      var c := BuildCard(ParseCard(body.value, isProfane, isEmail).value, id, shareId, createdAt, updatedAt);
      && res.1 == CardCreated(id, shareId, Complete)
      && Get(res.0, id) == Some(c) && Get(res.0, shareId) == Some(c)
      && (forall k :: k != id && k != shareId ==> Get(res.0, k) == Get(cards, k))
      && (WellFormed(cards) ==> WellFormed(res.0))
  {
    match body
    case None => (cards, InternalError)
    case Some(input) =>
      match ParseCard(input, isProfane, isEmail)
      case Failure(issues) => (cards, ValidationFailed(Flatten(issues)))
      case Success(data) =>
        var card := BuildCard(data, id, shareId, createdAt, updatedAt);
        (Created(cards, card), CardCreated(card.id, card.shareId, card.songStatus))
  }

  /** A rejected body is answered with the messages of exactly the rejected
      fields, each under its field name. */
  lemma RejectionNamesFailingFields(cards: CardMap, input: CardInput, id: string, shareId: string, createdAt: string,
                                    updatedAt: string, isProfane: string -> bool, isEmail: string -> bool)
    requires !CardAccepted(input, isProfane, isEmail)
    ensures var g := CardGroups(input, isProfane, isEmail);
      var res := PostOutcome(cards, Some(input), id, shareId, createdAt, updatedAt, isProfane, isEmail);
      && res.0 == cards && res.1.ValidationFailed?
      && (forall k :: 0 <= k < |g| && g[k].1 != [] ==> g[k].0 in res.1.details && res.1.details[g[k].0] == g[k].1)
      && (forall f :: f in res.1.details ==> exists k :: 0 <= k < |g| && g[k].0 == f && g[k].1 != [])
  {
    CardFieldErrors(input, isProfane, isEmail);
  }

  /** POST /api/cards against the card store. */
  method Post(store: CardStore, body: Option<CardInput>, id: string, shareId: string, createdAt: string,
              updatedAt: string, isProfane: string -> bool, isEmail: string -> bool) returns (resp: Response)
    requires store.Valid()
    modifies store
    ensures store.Valid()
    ensures (store.cards, resp) == PostOutcome(old(store.cards), body, id, shareId, createdAt, updatedAt, isProfane, isEmail)
    ensures resp.CardCreated? ==>
      && store.GetCardById(id).Some? && store.GetCardById(id) == store.GetCardByShareId(shareId)
      && store.GetCardById(id).value.songStatus == Complete
  {
    if body.None? {
      return InternalError;
    }
    var result := ParseCard(body.value, isProfane, isEmail);
    if result.Failure? {
      return ValidationFailed(Flatten(result.error));
    }
    var data := result.value;
    var card := BuildCard(data, id, shareId, createdAt, updatedAt);
    var stored := store.CreateCard(card);
    resp := CardCreated(stored.id, stored.shareId, stored.songStatus);
  }
}
