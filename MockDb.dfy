/** The in-memory card store (src/lib/mock-db.ts): one JavaScript `Map`
    that holds each card under its `id` and again under its `share_id`. */
module MockDb {
  import opened Wrappers
  import opened Types

  /** A JavaScript `Map<string, Card>`: its entries, and its keys in the
      order they were first set (the order `forEach` visits them). */
  datatype CardMap = CardMap(entries: map<string, Card>, order: seq<string>)

  predicate WellFormed(m: CardMap)
  {
    && (forall i, j :: 0 <= i < j < |m.order| ==> m.order[i] != m.order[j])
    && (forall i :: 0 <= i < |m.order| ==> m.order[i] in m.entries)
    && (forall k | k in m.entries :: k in m.order)
  }

  const EmptyMap := CardMap(map[], [])

  /** `Map.prototype.get`. */
  function Get(m: CardMap, k: string): (r: Option<Card>)
    ensures r.Some? <==> k in m.entries
    ensures r.Some? ==> r.value == m.entries[k]
  {
    if k in m.entries then Some(m.entries[k]) else None
  }

  /** `Map.prototype.set`: a new key goes to the end of the order, an
      existing key keeps its place and gets the new value. */
  function Set(m: CardMap, k: string, v: Card): (r: CardMap)
    ensures WellFormed(m) ==> WellFormed(r)
    ensures Get(r, k) == Some(v)
    ensures forall k' :: k' != k ==> Get(r, k') == Get(m, k')
    ensures k in m.entries ==> r.order == m.order
    ensures k !in m.entries ==> r.order == m.order + [k]
  {
    if k in m.entries then CardMap(m.entries[k := v], m.order)
    else CardMap(m.entries[k := v], m.order + [k])
  }

  /** The map after `createCard(card)`. */
  function Created(m: CardMap, card: Card): (r: CardMap)
    ensures WellFormed(m) ==> WellFormed(r)
    ensures Get(r, card.id) == Some(card) && Get(r, card.shareId) == Some(card)
    ensures forall k :: k != card.id && k != card.shareId ==> Get(r, k) == Get(m, k)
  {
    Set(Set(m, card.id, card), card.shareId, card)
  }

  /** The fields of a card, to say which ones a partial update touches. */
  datatype CardField =
    | IdField | ShareIdField | RecipientNameField | PersonalityTraitsField | InterestsField
    | RelationshipField | MusicStyleField | ThemeIdField | CustomMessageField | SenderNameField
    | SenderEmailField | SunoJobIdField | SongStatusField | SongUrlField | LyricsField
    | CreatedAtField | UpdatedAtField

  /** A `Partial<Card>`: `None` is a key the update object does not have.
      For the optional fields, `Some(None)` sets the field to undefined. */
  datatype CardPatch = CardPatch(
    id: Option<string>,
    shareId: Option<string>,
    recipientName: Option<string>,
    personalityTraits: Option<seq<string>>,
    interests: Option<seq<string>>,
    relationship: Option<string>,
    musicStyle: Option<string>,
    themeId: Option<string>,
    customMessage: Option<string>,
    senderName: Option<string>,
    senderEmail: Option<Option<string>>,
    sunoJobId: Option<Option<string>>,
    songStatus: Option<SongStatus>,
    songUrl: Option<Option<string>>,
    lyrics: Option<Option<string>>,
    createdAt: Option<string>,
    updatedAt: Option<string>)

  const NoChanges := CardPatch(None, None, None, None, None, None, None, None, None, None, None, None, None, None, None, None, None)

  /** The update object has key `f`. */
  predicate Has(p: CardPatch, f: CardField)
  {
    match f
    case IdField => p.id.Some?
    case ShareIdField => p.shareId.Some?
    case RecipientNameField => p.recipientName.Some?
    case PersonalityTraitsField => p.personalityTraits.Some?
    case InterestsField => p.interests.Some?
    case RelationshipField => p.relationship.Some?
    case MusicStyleField => p.musicStyle.Some?
    case ThemeIdField => p.themeId.Some?
    case CustomMessageField => p.customMessage.Some?
    case SenderNameField => p.senderName.Some?
    case SenderEmailField => p.senderEmail.Some?
    case SunoJobIdField => p.sunoJobId.Some?
    case SongStatusField => p.songStatus.Some?
    case SongUrlField => p.songUrl.Some?
    case LyricsField => p.lyrics.Some?
    case CreatedAtField => p.createdAt.Some?
    case UpdatedAtField => p.updatedAt.Some?
  }

  /** Cards `a` and `b` agree on field `f`. */
  predicate SameOn(a: Card, b: Card, f: CardField)
  {
    match f
    case IdField => a.id == b.id
    case ShareIdField => a.shareId == b.shareId
    case RecipientNameField => a.recipientName == b.recipientName
    case PersonalityTraitsField => a.personalityTraits == b.personalityTraits
    case InterestsField => a.interests == b.interests
    case RelationshipField => a.relationship == b.relationship
    case MusicStyleField => a.musicStyle == b.musicStyle
    case ThemeIdField => a.themeId == b.themeId
    case CustomMessageField => a.customMessage == b.customMessage
    case SenderNameField => a.senderName == b.senderName
    case SenderEmailField => a.senderEmail == b.senderEmail
    case SunoJobIdField => a.sunoJobId == b.sunoJobId
    case SongStatusField => a.songStatus == b.songStatus
    case SongUrlField => a.songUrl == b.songUrl
    case LyricsField => a.lyrics == b.lyrics
    case CreatedAtField => a.createdAt == b.createdAt
    case UpdatedAtField => a.updatedAt == b.updatedAt
  }

  /** Card `c` holds the value the update gives field `f` (when it gives one). */
  predicate HoldsPatch(c: Card, p: CardPatch, f: CardField)
  {
    match f
    case IdField => p.id.Some? ==> c.id == p.id.value
    case ShareIdField => p.shareId.Some? ==> c.shareId == p.shareId.value
    case RecipientNameField => p.recipientName.Some? ==> c.recipientName == p.recipientName.value
    case PersonalityTraitsField => p.personalityTraits.Some? ==> c.personalityTraits == p.personalityTraits.value
    case InterestsField => p.interests.Some? ==> c.interests == p.interests.value
    case RelationshipField => p.relationship.Some? ==> c.relationship == p.relationship.value
    case MusicStyleField => p.musicStyle.Some? ==> c.musicStyle == p.musicStyle.value
    case ThemeIdField => p.themeId.Some? ==> c.themeId == p.themeId.value
    case CustomMessageField => p.customMessage.Some? ==> c.customMessage == p.customMessage.value
    case SenderNameField => p.senderName.Some? ==> c.senderName == p.senderName.value
    case SenderEmailField => p.senderEmail.Some? ==> c.senderEmail == p.senderEmail.value
    case SunoJobIdField => p.sunoJobId.Some? ==> c.sunoJobId == p.sunoJobId.value
    case SongStatusField => p.songStatus.Some? ==> c.songStatus == p.songStatus.value
    case SongUrlField => p.songUrl.Some? ==> c.songUrl == p.songUrl.value
    case LyricsField => p.lyrics.Some? ==> c.lyrics == p.lyrics.value
    case CreatedAtField => p.createdAt.Some? ==> c.createdAt == p.createdAt.value
    case UpdatedAtField => p.updatedAt.Some? ==> c.updatedAt == p.updatedAt.value
  }

  /** `{ ...card, ...updates, updated_at: now }`. */
  function Merge(c: Card, p: CardPatch, now: string): (r: Card)
    ensures r.updatedAt == now
    ensures forall f :: f != UpdatedAtField && !Has(p, f) ==> SameOn(r, c, f)
    ensures forall f :: f != UpdatedAtField ==> HoldsPatch(r, p, f)
  {
    Card(
      p.id.GetOr(c.id),
      p.shareId.GetOr(c.shareId),
      p.recipientName.GetOr(c.recipientName),
      p.personalityTraits.GetOr(c.personalityTraits),
      p.interests.GetOr(c.interests),
      p.relationship.GetOr(c.relationship),
      p.musicStyle.GetOr(c.musicStyle),
      p.themeId.GetOr(c.themeId),
      p.customMessage.GetOr(c.customMessage),
      p.senderName.GetOr(c.senderName),
      p.senderEmail.GetOr(c.senderEmail),
      p.sunoJobId.GetOr(c.sunoJobId),
      p.songStatus.GetOr(c.songStatus),
      p.songUrl.GetOr(c.songUrl),
      p.lyrics.GetOr(c.lyrics),
      p.createdAt.GetOr(c.createdAt),
      now)
  }

  /** The later update wins field by field. */
  function Then(p: CardPatch, q: CardPatch): CardPatch
  {
    CardPatch(
      if q.id.Some? then q.id else p.id,
      if q.shareId.Some? then q.shareId else p.shareId,
      if q.recipientName.Some? then q.recipientName else p.recipientName,
      if q.personalityTraits.Some? then q.personalityTraits else p.personalityTraits,
      if q.interests.Some? then q.interests else p.interests,
      if q.relationship.Some? then q.relationship else p.relationship,
      if q.musicStyle.Some? then q.musicStyle else p.musicStyle,
      if q.themeId.Some? then q.themeId else p.themeId,
      if q.customMessage.Some? then q.customMessage else p.customMessage,
      if q.senderName.Some? then q.senderName else p.senderName,
      if q.senderEmail.Some? then q.senderEmail else p.senderEmail,
      if q.sunoJobId.Some? then q.sunoJobId else p.sunoJobId,
      if q.songStatus.Some? then q.songStatus else p.songStatus,
      if q.songUrl.Some? then q.songUrl else p.songUrl,
      if q.lyrics.Some? then q.lyrics else p.lyrics,
      if q.createdAt.Some? then q.createdAt else p.createdAt,
      if q.updatedAt.Some? then q.updatedAt else p.updatedAt)
  }

  /** Two successive merges are one merge of the combined update, stamped
      with the later time; so a merge repeated is the merge once. */
  lemma MergeTwice(c: Card, p: CardPatch, q: CardPatch, t1: string, t2: string)
    ensures Merge(Merge(c, p, t1), q, t2) == Merge(c, Then(p, q), t2)
    ensures Merge(Merge(c, p, t1), p, t1) == Merge(c, p, t1)
  {
  }

  /** An update with no keys only refreshes the timestamp. */
  lemma MergeNothing(c: Card, now: string)
    ensures Merge(c, NoChanges, now) == c.(updatedAt := now)
    ensures forall f :: !Has(NoChanges, f)
  {
  }

  /** The map and the result after `updateCard(id, updates)` at time `now`.
      The merged record is stored under the key given and under the
      `share_id` of the record found. */
  function Updated(m: CardMap, id: string, updates: CardPatch, now: string): (res: (CardMap, Option<Card>))
    ensures id !in m.entries ==> res == (m, None)
    ensures id in m.entries ==>
      && res.1 == Some(Merge(m.entries[id], updates, now))
      && res.0 == Set(Set(m, id, res.1.value), m.entries[id].shareId, res.1.value)
  {
    match Get(m, id)
    case None => (m, None)
    case Some(card) =>
      var updated := Merge(card, updates, now);
      (Set(Set(m, id, updated), card.shareId, updated), Some(updated))
  }

  /** Updating a card through its own id leaves both of its keys holding the
      merged record; no other key changes, and no key is added. */
  lemma UpdateThroughId(m: CardMap, id: string, updates: CardPatch, now: string)
    requires WellFormed(m)
    requires id in m.entries && m.entries[id].id == id && m.entries[id].shareId in m.entries
    ensures var (m', r) := Updated(m, id, updates, now);
      && r.Some?
      && Get(m', id) == r && Get(m', m.entries[id].shareId) == r
      && (forall k :: k != id && k != m.entries[id].shareId ==> Get(m', k) == Get(m, k))
      && m'.order == m.order
  {
  }

  /** Updating a card through its share id refreshes only the share-id entry
      (set twice); the entry under the card's primary id keeps the old record. */
  lemma UpdateThroughShareIdLeavesIdStale(m: CardMap, shareId: string, updates: CardPatch, now: string)
    requires shareId in m.entries
    requires m.entries[shareId].shareId == shareId && m.entries[shareId].id != shareId
    ensures var (m', r) := Updated(m, shareId, updates, now);
      && Get(m', shareId) == r
      && Get(m', m.entries[shareId].id) == Get(m, m.entries[shareId].id)
  {
  }

  /** The set of ids of a list of cards. */
  function Ids(cs: seq<Card>): set<string>
  {
    set c | c in cs :: c.id
  }

  /** No two cards in the list share an id. */
  predicate DistinctIds(cs: seq<Card>)
  {
    forall i, j :: 0 <= i < j < |cs| ==> cs[i].id != cs[j].id
  }

  /** The values of a map in the order `forEach` visits them. */
  function Values(m: CardMap): (vs: seq<Card>)
    requires WellFormed(m)
    ensures |vs| == |m.order|
    ensures forall i :: 0 <= i < |vs| ==> vs[i] == m.entries[m.order[i]]
  {
    seq(|m.order|, i requires 0 <= i < |m.order| => m.entries[m.order[i]])
  }

  /** Keep the first card of each id, in order. */
  function DedupById(cs: seq<Card>): (r: seq<Card>)
    ensures DistinctIds(r)
    ensures Ids(r) == Ids(cs)
    ensures forall c :: c in r ==> c in cs
  {
    if cs == [] then []
    else
      var n := |cs| - 1;
      var before := DedupById(cs[..n]);
      assert cs == cs[..n] + [cs[n]];
      assert Ids(cs) == Ids(cs[..n]) + {cs[n].id};
      if cs[n].id in Ids(before) then before
      else
        var r := before + [cs[n]];
        assert Ids(r) == Ids(before) + {cs[n].id};
        r
  }

  lemma IdsSnoc(cs: seq<Card>, x: Card)
    ensures Ids(cs + [x]) == Ids(cs) + {x.id}
  {
    assert forall c :: c in cs + [x] <==> c in cs || c == x;
  }

  lemma DedupSnoc(cs: seq<Card>, x: Card)
    ensures DedupById(cs + [x]) == if x.id in Ids(DedupById(cs)) then DedupById(cs) else DedupById(cs) + [x]
  {
    assert (cs + [x])[..|cs|] == cs;
  }

  /** Every stored card is among the values, and every value is stored. */
  lemma ValuesCover(m: CardMap)
    requires WellFormed(m)
    ensures forall k :: k in m.entries ==> m.entries[k].id in Ids(Values(m))
    ensures forall c :: c in Values(m) ==> c in m.entries.Values
  {
    var vs := Values(m);
    forall k | k in m.entries ensures m.entries[k].id in Ids(vs) {
      var j :| 0 <= j < |m.order| && m.order[j] == k;
      assert vs[j] in vs;
    }
    forall c | c in vs ensures c in m.entries.Values {
      var j :| 0 <= j < |vs| && vs[j] == c;
      assert m.order[j] in m.entries;
    }
  }

  /** Position of the first card with id `id`. */
  function FirstWithId(cs: seq<Card>, id: string): (i: nat)
    requires id in Ids(cs)
    ensures i < |cs| && cs[i].id == id
    ensures forall j :: 0 <= j < i ==> cs[j].id != id
  {
    if cs[0].id == id then 0
    else
      assert id in Ids(cs[1..]) by {
        var c :| c in cs && c.id == id;
        var k :| 0 <= k < |cs| && cs[k] == c;
        assert cs[1..][k - 1] == c;
      }
      1 + FirstWithId(cs[1..], id)
  }

  lemma FirstWithIdExtend(cs: seq<Card>, x: Card, id: string)
    requires id in Ids(cs)
    ensures id in Ids(cs + [x]) && FirstWithId(cs + [x], id) == FirstWithId(cs, id)
  {
    var i := FirstWithId(cs, id);
    var j := FirstWithId(cs + [x], id);
    assert (cs + [x])[i] == cs[i];
    assert j <= i;
    assert cs[j] == (cs + [x])[j];
  }

  /** `r` lists, for each id of `cs`, the first card with that id, in the
      order of those first occurrences. */
  predicate FirstOccurrences(cs: seq<Card>, r: seq<Card>)
  {
    && (forall j :: 0 <= j < |r| ==> r[j].id in Ids(cs) && r[j] == cs[FirstWithId(cs, r[j].id)])
    && (forall j, l :: 0 <= j < l < |r| ==> r[j].id in Ids(cs) && r[l].id in Ids(cs) && FirstWithId(cs, r[j].id) < FirstWithId(cs, r[l].id))
  }

  /** Appending a card whose id was seen keeps every first occurrence. */
  lemma FirstOccurrencesSeen(cs: seq<Card>, x: Card, r: seq<Card>)
    requires FirstOccurrences(cs, r) && Ids(r) == Ids(cs)
    ensures FirstOccurrences(cs + [x], r)
  {
    forall j | 0 <= j < |r| ensures r[j].id in Ids(cs) && FirstWithId(cs + [x], r[j].id) == FirstWithId(cs, r[j].id) {
      FirstWithIdExtend(cs, x, r[j].id);
    }
  }

  /** Appending a card with a new id adds its first (and only) occurrence last. */
  lemma FirstOccurrencesNew(cs: seq<Card>, x: Card, r: seq<Card>)
    requires FirstOccurrences(cs, r) && Ids(r) == Ids(cs) && x.id !in Ids(cs)
    ensures FirstOccurrences(cs + [x], r + [x])
  {
    FirstOccurrencesSeen(cs, x, r);
    var n := |cs|;
    assert (cs + [x])[n] == x;
    forall k | 0 <= k < n ensures (cs + [x])[k].id != x.id {
      assert (cs + [x])[k] == cs[k] && cs[k] in cs;
    }
    assert x.id in Ids(cs + [x]) by { assert x in cs + [x]; }
    assert FirstWithId(cs + [x], x.id) == n;
    forall j | 0 <= j < |r| ensures r[j].id in Ids(cs) && FirstWithId(cs, r[j].id) < n {
    }
  }

  /** Each card kept is the first card with its id, and they come in the
      order of those first occurrences. */
  lemma {:induction false} DedupKeepsFirstOccurrences(cs: seq<Card>)
    ensures FirstOccurrences(cs, DedupById(cs))
  {
    if cs != [] {
      var n := |cs| - 1;
      var pre := cs[..n];
      DedupKeepsFirstOccurrences(pre);
      assert cs == pre + [cs[n]];
      DedupSnoc(pre, cs[n]);
      if cs[n].id in Ids(DedupById(pre)) {
        FirstOccurrencesSeen(pre, cs[n], DedupById(pre));
      } else {
        FirstOccurrencesNew(pre, cs[n], DedupById(pre));
      }
    }
  }

  /** The deduplicated values hold one card per id, cover every stored
      card, come from the store, and keep the first card of each id in
      visiting order. */
  lemma AllCardsFacts(m: CardMap)
    requires WellFormed(m)
    ensures var r := DedupById(Values(m));
      && DistinctIds(r)
      && (forall k :: k in m.entries ==> m.entries[k].id in Ids(r))
      && (forall c :: c in r ==> c in m.entries.Values)
      && FirstOccurrences(Values(m), r)
  {
    ValuesCover(m);
    DedupKeepsFirstOccurrences(Values(m));
  }

  /** The `forEach` loop of `getAllCards` over the visited values `vs`:
      a card is kept the first time its id is seen. */
  method FirstById(vs: seq<Card>) returns (result: seq<Card>)
    ensures result == DedupById(vs)
  {
    var seen: set<string> := {};
    result := [];
    var i := 0;
    while i < |vs|
      invariant 0 <= i <= |vs|
      invariant result == DedupById(vs[..i])
      invariant seen == Ids(result)
    {
      var card := vs[i];
      assert vs[..i + 1] == vs[..i] + [card];
      DedupSnoc(vs[..i], card);
      if card.id !in seen {
        IdsSnoc(result, card);
        seen := seen + {card.id};
        result := result + [card];
      }
      i := i + 1;
    }
    assert vs[..i] == vs;
  }

  /** The store. `cards` is the module-level `Map`. */
  class CardStore {
    var cards: CardMap

    ghost predicate Valid()
      reads this
    {
      WellFormed(cards)
    }

    constructor ()
      ensures Valid() && cards == EmptyMap
    {
      cards := EmptyMap;
    }

    /** `getCardById`. */
    function GetCardById(id: string): (r: Option<Card>)
      reads this
      ensures r.Some? <==> id in cards.entries
      ensures r.Some? ==> r.value == cards.entries[id]
    {
      Get(cards, id)
    }

    /** `getCardByShareId`: the same lookup in the same map, so it resolves
        a primary id as readily as a share id. */
    function GetCardByShareId(shareId: string): (r: Option<Card>)
      reads this
      ensures r == GetCardById(shareId)
    {
      Get(cards, shareId)
    }

    /** `createCard`: store the card under both keys and return it. */
    method CreateCard(card: Card) returns (r: Card)
      requires Valid()
      modifies this
      ensures Valid()
      ensures r == card && cards == Created(old(cards), card)
      ensures GetCardById(card.id) == Some(card) && GetCardByShareId(card.shareId) == Some(card)
    {
      cards := Set(cards, card.id, card);
      cards := Set(cards, card.shareId, card);
      r := card;
    }

    /** `updateCard`. */
    method UpdateCard(id: string, updates: CardPatch, now: string) returns (r: Option<Card>)
      requires Valid()
      modifies this
      ensures Valid()
      ensures (cards, r) == Updated(old(cards), id, updates, now)
      ensures r.None? <==> id !in old(cards.entries)
      ensures r.None? ==> cards == old(cards)
    {
      var card := Get(cards, id);
      if card.None? {
        return None;
      }
      var updated := Merge(card.value, updates, now);
      cards := Set(cards, id, updated);
      cards := Set(cards, card.value.shareId, updated);
      r := Some(updated);
    }

    /** `getAllCards`: walk the map in insertion order and keep a card only
        the first time its id is seen. */
    method GetAllCards() returns (result: seq<Card>)
      requires Valid()
      ensures result == DedupById(Values(cards))
      ensures DistinctIds(result)
      ensures forall k :: k in cards.entries ==> cards.entries[k].id in Ids(result)
      ensures forall c :: c in result ==> c in cards.entries.Values
      ensures FirstOccurrences(Values(cards), result)
    {
      result := FirstById(Values(cards));
      AllCardsFacts(cards);
    }
  }
}
