/** The input schemas of src/lib/validators.ts. A parse yields the list of
    issues zod reports, in schema order, each tagged with the first element
    of its path (the field name); zod's flattening of that list is `Flatten`.
    The profanity filter and zod's e-mail check are the parameters
    `isProfane` and `isEmail`. */
module Validators {
  import opened Wrappers
  import opened JsText
  import opened Types

  /** The zod issue kinds whose default message the schemas keep. */
  datatype IssueCode = Required | TooBig(maximum: nat) | InvalidEnumValue | InvalidUuid

  /** An issue message: a text the schema gives, or zod's default message
      for the issue kind. */
  datatype Message = Text(text: string) | ZodDefault(code: IssueCode)

  /** An issue, with the first element of its path. */
  datatype Issue = Issue(field: string, message: Message)

  const AppropriateLanguage := "Please use appropriate language"

  /** A body as JSON gives it; an absent (or undefined) field is `None`. */
  datatype CardInput = CardInput(
    recipientName: Option<string>,
    personalityTraits: Option<seq<string>>,
    interests: Option<seq<string>>,
    relationship: Option<string>,
    musicStyle: Option<string>,
    themeId: Option<string>,
    customMessage: Option<string>,
    senderName: Option<string>,
    senderEmail: Option<string>)

  // ---- What each field schema accepts ----

  predicate NameAccepted(v: Option<string>, isProfane: string -> bool)
  {
    v.Some? && 1 <= Utf16Length(v.value) <= 50 && !isProfane(v.value)
  }

  predicate ListAccepted(v: Option<seq<string>>)
  {
    v.Some? && 1 <= |v.value| <= 5 && forall k :: 0 <= k < |v.value| ==> Utf16Length(v.value[k]) <= 30
  }

  predicate RelationshipAccepted(v: Option<string>)
  {
    v.Some? && 1 <= Utf16Length(v.value) <= 30
  }

  predicate MusicStyleAccepted(v: Option<string>)
  {
    v.Some? && ParseMusicStyle(v.value).Some?
  }

  predicate ThemeAccepted(v: Option<string>)
  {
    v.Some? && ParseThemeId(v.value).Some?
  }

  predicate CustomMessageAccepted(v: Option<string>, isProfane: string -> bool)
  {
    v.None? || (Utf16Length(v.value) <= 500 && !isProfane(v.value))
  }

  predicate EmailAccepted(v: Option<string>, isEmail: string -> bool)
  {
    v.None? || v.value == "" || isEmail(v.value)
  }

  // ---- The issues each field schema reports ----

  /** `recipientNameSchema` and `senderNameSchema`: length 1..50, then the
      profanity refinement, which zod still runs after a failed length
      check. */
  function NameMessages(v: Option<string>, requiredText: string, isProfane: string -> bool): (r: seq<Message>)
    ensures r == [] <==> NameAccepted(v, isProfane)
    ensures v.None? ==> r == [ZodDefault(Required)]
    ensures v.Some? && isProfane(v.value) ==> r[|r| - 1] == Text(AppropriateLanguage)
  {
    match v
    case None => [ZodDefault(Required)]
    case Some(s) =>
      (if Utf16Length(s) < 1 then [Text(requiredText)] else [])
      + (if Utf16Length(s) > 50 then [Text("Name must be 50 characters or less")] else [])
      + (if isProfane(s) then [Text(AppropriateLanguage)] else [])
  }

  function RecipientNameMessages(v: Option<string>, isProfane: string -> bool): (r: seq<Message>)
    ensures r == [] <==> NameAccepted(v, isProfane)
  {
    NameMessages(v, "Recipient name is required", isProfane)
  }

  function SenderNameMessages(v: Option<string>, isProfane: string -> bool): (r: seq<Message>)
    ensures r == [] <==> NameAccepted(v, isProfane)
  {
    NameMessages(v, "Your name is required", isProfane)
  }

  /** One default too-big issue per element longer than 30. */
  function TooLongElements(xs: seq<string>): (r: seq<Message>)
    ensures |r| <= |xs|
    ensures r == [] <==> forall k :: 0 <= k < |xs| ==> Utf16Length(xs[k]) <= 30
    ensures forall k :: 0 <= k < |r| ==> r[k] == ZodDefault(TooBig(30))
  {
    if xs == [] then []
    else
      var rest := TooLongElements(xs[1..]);
      assert forall k :: 1 <= k < |xs| ==> xs[k] == xs[1..][k - 1];
      (if Utf16Length(xs[0]) > 30 then [ZodDefault(TooBig(30))] else []) + rest
  }

  /** `personalityTraitsSchema` and `interestsSchema`: zod checks the array
      size first and then each element. */
  function ListMessages(v: Option<seq<string>>, tooFew: string, tooMany: string): (r: seq<Message>)
    ensures r == [] <==> ListAccepted(v)
    ensures v.None? ==> r == [ZodDefault(Required)]
  {
    match v
    case None => [ZodDefault(Required)]
    case Some(xs) =>
      (if |xs| < 1 then [Text(tooFew)] else [])
      + (if |xs| > 5 then [Text(tooMany)] else [])
      + TooLongElements(xs)
  }

  function TraitsMessages(v: Option<seq<string>>): (r: seq<Message>)
    ensures r == [] <==> ListAccepted(v)
  {
    ListMessages(v, "Add at least one personality trait", "Maximum 5 personality traits")
  }

  function InterestsMessages(v: Option<seq<string>>): (r: seq<Message>)
    ensures r == [] <==> ListAccepted(v)
  {
    ListMessages(v, "Add at least one interest", "Maximum 5 interests")
  }

  function RelationshipMessages(v: Option<string>): (r: seq<Message>)
    ensures r == [] <==> RelationshipAccepted(v)
  {
    match v
    case None => [ZodDefault(Required)]
    case Some(s) =>
      (if Utf16Length(s) < 1 then [Text("Relationship is required")] else [])
      + (if Utf16Length(s) > 30 then [Text("Relationship must be 30 characters or less")] else [])
  }

  function MusicStyleMessages(v: Option<string>): (r: seq<Message>)
    ensures r == [] <==> MusicStyleAccepted(v)
  {
    match v
    case None => [ZodDefault(Required)]
    case Some(k) => if ParseMusicStyle(k).Some? then [] else [ZodDefault(InvalidEnumValue)]
  }

  function ThemeMessages(v: Option<string>): (r: seq<Message>)
    ensures r == [] <==> ThemeAccepted(v)
  {
    match v
    case None => [ZodDefault(Required)]
    case Some(k) => if ParseThemeId(k).Some? then [] else [ZodDefault(InvalidEnumValue)]
  }

  function CustomMessageMessages(v: Option<string>, isProfane: string -> bool): (r: seq<Message>)
    ensures r == [] <==> CustomMessageAccepted(v, isProfane)
  {
    match v
    case None => []
    case Some(s) =>
      (if Utf16Length(s) > 500 then [Text("Message must be 500 characters or less")] else [])
      + (if isProfane(s) then [Text(AppropriateLanguage)] else [])
  }

  /** `emailSchema`: the union reports the e-mail option's issue when
      neither option matches. */
  function EmailMessages(v: Option<string>, isEmail: string -> bool): (r: seq<Message>)
    ensures r == [] <==> EmailAccepted(v, isEmail)
  {
    match v
    case None => []
    case Some(s) => if s == "" || isEmail(s) then [] else [Text("Invalid email address")]
  }

  /** `musicStyleSchema` accepts exactly the eight style keys and
      `themeIdSchema` exactly the six theme keys. */
  lemma EnumsAcceptExactlyTheirKeys(k: string)
    ensures MusicStyleAccepted(Some(k)) <==> exists s: MusicStyle :: s.Key() == k
    ensures ThemeAccepted(Some(k)) <==> exists t: ThemeId :: t.Key() == k
  {
    if MusicStyleAccepted(Some(k)) {
      assert ParseMusicStyle(k).value.Key() == k;
    }
    if ThemeAccepted(Some(k)) {
      assert ParseThemeId(k).value.Key() == k;
    }
  }

  // ---- Issue lists and their flattening ----

  /** Messages of one field, as issues of that field. */
  function Tagged(field: string, ms: seq<Message>): (r: seq<Issue>)
    ensures |r| == |ms|
    ensures forall i :: 0 <= i < |r| ==> r[i] == Issue(field, ms[i])
  {
    seq(|ms|, i requires 0 <= i < |ms| => Issue(field, ms[i]))
  }

  /** Issues of several fields, in the order of the fields. */
  function IssuesOf(groups: seq<(string, seq<Message>)>): (r: seq<Issue>)
    ensures forall i :: 0 <= i < |r| ==> exists k :: 0 <= k < |groups| && r[i].field == groups[k].0 && groups[k].1 != []
    ensures r == [] <==> forall k :: 0 <= k < |groups| ==> groups[k].1 == []
  {
    if groups == [] then []
    else
      var init := groups[..|groups| - 1];
      var last := groups[|groups| - 1];
      var r := IssuesOf(init) + Tagged(last.0, last.1);
      assert forall k :: 0 <= k < |init| ==> init[k] == groups[k];
      r
  }

  predicate DistinctFields(groups: seq<(string, seq<Message>)>)
  {
    forall k, l :: 0 <= k < l < |groups| ==> groups[k].0 != groups[l].0
  }

  /** `error.flatten().fieldErrors`: the messages of each field that has
      issues, in issue order. */
  function Flatten(issues: seq<Issue>): map<string, seq<Message>>
  {
    if issues == [] then map[]
    else
      var m := Flatten(issues[..|issues| - 1]);
      var last := issues[|issues| - 1];
      m[last.field := (if last.field in m then m[last.field] else []) + [last.message]]
  }

  /** The fields of a flattening are the fields of the issues. */
  lemma {:induction false} FlattenKeys(issues: seq<Issue>)
    ensures forall f :: f in Flatten(issues) <==> exists i :: 0 <= i < |issues| && issues[i].field == f
  {
    if issues != [] {
      var init := issues[..|issues| - 1];
      FlattenKeys(init);
      assert forall i :: 0 <= i < |init| ==> init[i] == issues[i];
    }
  }

  /** Flattening one more issue appends its message under its field. */
  lemma FlattenSnoc(xs: seq<Issue>, issue: Issue)
    ensures var m := Flatten(xs);
      Flatten(xs + [issue]) == m[issue.field := (if issue.field in m then m[issue.field] else []) + [issue.message]]
  {
    assert (xs + [issue])[..|xs|] == xs;
  }

  /** Flattening issues of a field not yet seen files them under that field. */
  lemma {:induction false} FlattenAppendTagged(xs: seq<Issue>, f: string, ms: seq<Message>)
    requires forall i :: 0 <= i < |xs| ==> xs[i].field != f
    ensures ms != [] ==> Flatten(xs + Tagged(f, ms)) == Flatten(xs)[f := ms]
    ensures ms == [] ==> Flatten(xs + Tagged(f, ms)) == Flatten(xs)
    decreases |ms|
  {
    if ms == [] {
      assert xs + Tagged(f, ms) == xs;
    } else {
      var init := ms[..|ms| - 1];
      FlattenAppendTagged(xs, f, init);
      FlattenTaggedStep(xs, f, init, ms[|ms| - 1]);
      assert init + [ms[|ms| - 1]] == ms;
    }
  }

  lemma TaggedSnoc(f: string, init: seq<Message>, last: Message)
    ensures Tagged(f, init + [last]) == Tagged(f, init) + [Issue(f, last)]
  {
    assert Tagged(f, init + [last]) == Tagged(f, init) + [Issue(f, last)];
  }

  /** One more message of the new field is appended under it. */
  lemma {:induction false} FlattenTaggedStep(xs: seq<Issue>, f: string, init: seq<Message>, last: Message)
    requires forall i :: 0 <= i < |xs| ==> xs[i].field != f
    requires Flatten(xs + Tagged(f, init)) == if init == [] then Flatten(xs) else Flatten(xs)[f := init]
    ensures Flatten(xs + Tagged(f, init + [last])) == Flatten(xs)[f := init + [last]]
  {
    var prefix := xs + Tagged(f, init);
    var x := Issue(f, last);
    TaggedSnoc(f, init, last);
    assert xs + Tagged(f, init + [last]) == prefix + [x];
    FlattenSnoc(prefix, x);
    var m := Flatten(xs);
    var fp := Flatten(prefix);
    if init == [] {
      FlattenKeys(xs);
      assert prefix == xs;
      assert f !in fp;
    } else {
      assert fp == m[f := init];
      UpdateTwice(m, f, init, init + [last]);
    }
  }

  lemma UpdateTwice<K, V>(m: map<K, V>, k: K, a: V, b: V)
    ensures m[k := a][k := b] == m[k := b]
  {
  }

  /** Issues of earlier groups never carry the field of a later group. */
  lemma IssuesOfOtherFields(groups: seq<(string, seq<Message>)>, f: string)
    requires forall k :: 0 <= k < |groups| ==> groups[k].0 != f
    ensures forall i :: 0 <= i < |IssuesOf(groups)| ==> IssuesOf(groups)[i].field != f
  {
    var xs := IssuesOf(groups);
    forall i | 0 <= i < |xs| ensures xs[i].field != f {
      var k :| 0 <= k < |groups| && xs[i].field == groups[k].0 && groups[k].1 != [];
    }
  }

  /** Flattening issues grouped by distinct fields gives back each
      non-empty group under its field. */
  lemma {:induction false} FlattenGroups(groups: seq<(string, seq<Message>)>)
    requires DistinctFields(groups)
    ensures forall k :: 0 <= k < |groups| && groups[k].1 != [] ==>
      groups[k].0 in Flatten(IssuesOf(groups)) && Flatten(IssuesOf(groups))[groups[k].0] == groups[k].1
  {
    if groups != [] {
      var init := groups[..|groups| - 1];
      var last := groups[|groups| - 1];
      assert forall k :: 0 <= k < |init| ==> init[k] == groups[k];
      FlattenGroups(init);
      IssuesOfOtherFields(init, last.0);
      var xs := IssuesOf(init);
      FlattenAppendTagged(xs, last.0, last.1);
      assert IssuesOf(groups) == xs + Tagged(last.0, last.1);
      GroupsStep(groups, Flatten(xs), Flatten(IssuesOf(groups)));
    }
  }

  /** Filing the last group's messages under its field keeps the earlier
      groups' entries, the fields being distinct. */
  lemma GroupsStep(groups: seq<(string, seq<Message>)>, m0: map<string, seq<Message>>, m: map<string, seq<Message>>)
    requires groups != [] && DistinctFields(groups)
    requires forall k :: 0 <= k < |groups| - 1 && groups[k].1 != [] ==> groups[k].0 in m0 && m0[groups[k].0] == groups[k].1
    requires var last := groups[|groups| - 1]; m == if last.1 == [] then m0 else m0[last.0 := last.1]
    ensures forall k :: 0 <= k < |groups| && groups[k].1 != [] ==> groups[k].0 in m && m[groups[k].0] == groups[k].1
  {
  }

  /** Every field of a flattening is the field of a non-empty group. */
  lemma FlattenGroupsKeys(groups: seq<(string, seq<Message>)>)
    ensures forall f :: f in Flatten(IssuesOf(groups)) ==>
      exists k :: 0 <= k < |groups| && groups[k].0 == f && groups[k].1 != []
  {
    var r := IssuesOf(groups);
    FlattenKeys(r);
    forall f | f in Flatten(r) ensures exists k :: 0 <= k < |groups| && groups[k].0 == f && groups[k].1 != [] {
      var i :| 0 <= i < |r| && r[i].field == f;
    }
  }

  // ---- createCardSchema ----

  /** The fields of `createCardSchema`, in schema order. */
  const CardFields: seq<string> := [
    "recipientName", "personalityTraits", "interests", "relationship", "musicStyle",
    "themeId", "customMessage", "senderName", "senderEmail"]

  lemma CardFieldsDistinct()
    ensures forall k, l :: 0 <= k < l < |CardFields| ==> CardFields[k] != CardFields[l]
  {
  }

  /** Each field with the messages its schema reports, in schema order. */
  function CardGroups(input: CardInput, isProfane: string -> bool, isEmail: string -> bool): (g: seq<(string, seq<Message>)>)
    ensures |g| == |CardFields|
    ensures forall k :: 0 <= k < |g| ==> g[k].0 == CardFields[k]
    ensures DistinctFields(g)
  {
    CardFieldsDistinct();
    [ ("recipientName", RecipientNameMessages(input.recipientName, isProfane)),
      ("personalityTraits", TraitsMessages(input.personalityTraits)),
      ("interests", InterestsMessages(input.interests)),
      ("relationship", RelationshipMessages(input.relationship)),
      ("musicStyle", MusicStyleMessages(input.musicStyle)),
      ("themeId", ThemeMessages(input.themeId)),
      ("customMessage", CustomMessageMessages(input.customMessage, isProfane)),
      ("senderName", SenderNameMessages(input.senderName, isProfane)),
      ("senderEmail", EmailMessages(input.senderEmail, isEmail)) ]
  }

  /** Every field schema accepts its field. */
  predicate CardAccepted(input: CardInput, isProfane: string -> bool, isEmail: string -> bool)
  {
    && NameAccepted(input.recipientName, isProfane)
    && ListAccepted(input.personalityTraits)
    && ListAccepted(input.interests)
    && RelationshipAccepted(input.relationship)
    && MusicStyleAccepted(input.musicStyle)
    && ThemeAccepted(input.themeId)
    && CustomMessageAccepted(input.customMessage, isProfane)
    && NameAccepted(input.senderName, isProfane)
    && EmailAccepted(input.senderEmail, isEmail)
  }

  /** Nine groups are all empty exactly when each of them is. */
  lemma NineGroupsEmpty(g: seq<(string, seq<Message>)>)
    requires |g| == 9
    ensures (forall k :: 0 <= k < |g| ==> g[k].1 == []) <==>
      (g[0].1 == [] && g[1].1 == [] && g[2].1 == [] && g[3].1 == [] && g[4].1 == []
       && g[5].1 == [] && g[6].1 == [] && g[7].1 == [] && g[8].1 == [])
  {
  }

  /** The issues `createCardSchema.safeParse` reports. */
  function CardIssues(input: CardInput, isProfane: string -> bool, isEmail: string -> bool): (r: seq<Issue>)
    ensures r == [] <==> CardAccepted(input, isProfane, isEmail)
    ensures forall i :: 0 <= i < |r| ==> r[i].field in CardFields
  {
    var g := CardGroups(input, isProfane, isEmail);
    var r := IssuesOf(g);
    forall i | 0 <= i < |r| ensures r[i].field in CardFields {
      var k :| 0 <= k < |g| && r[i].field == g[k].0;
    }
    NineGroupsEmpty(g);
    r
  }

  /** The data `createCardSchema` yields; the enumerations are parsed. */
  datatype CardData = CardData(
    recipientName: string,
    personalityTraits: seq<string>,
    interests: seq<string>,
    relationship: string,
    musicStyle: MusicStyle,
    themeId: ThemeId,
    customMessage: Option<string>,
    senderName: string,
    senderEmail: Option<string>)

  /** `createCardSchema.safeParse`: the data when every field is accepted,
      copied field by field; the issues otherwise. */
  function ParseCard(input: CardInput, isProfane: string -> bool, isEmail: string -> bool): (r: Result<CardData, seq<Issue>>)
    ensures r.Success? <==> CardAccepted(input, isProfane, isEmail)
    ensures r.Failure? ==> r.error == CardIssues(input, isProfane, isEmail) && r.error != []
    ensures r.Success? ==>
      && Some(r.value.recipientName) == input.recipientName
      && Some(r.value.personalityTraits) == input.personalityTraits
      && Some(r.value.interests) == input.interests
      && Some(r.value.relationship) == input.relationship
      && Some(r.value.musicStyle.Key()) == input.musicStyle
      && Some(r.value.themeId.Key()) == input.themeId
      && r.value.customMessage == input.customMessage
      && Some(r.value.senderName) == input.senderName
      && r.value.senderEmail == input.senderEmail
  {
    var issues := CardIssues(input, isProfane, isEmail);
    if issues != [] then Failure(issues)
    else
      Success(CardData(
        input.recipientName.value, input.personalityTraits.value, input.interests.value,
        input.relationship.value, ParseMusicStyle(input.musicStyle.value).value,
        ParseThemeId(input.themeId.value).value, input.customMessage,
        input.senderName.value, input.senderEmail))
  }

  /** The field errors of a rejected card name exactly the rejected fields,
      each with the messages of its own schema. */
  lemma CardFieldErrors(input: CardInput, isProfane: string -> bool, isEmail: string -> bool)
    ensures var g := CardGroups(input, isProfane, isEmail);
      var m := Flatten(CardIssues(input, isProfane, isEmail));
      && (forall k :: 0 <= k < |g| && g[k].1 != [] ==> g[k].0 in m && m[g[k].0] == g[k].1)
      && (forall f :: f in m ==> exists k :: 0 <= k < |g| && g[k].0 == f && g[k].1 != [])
  {
    FlattenGroups(CardGroups(input, isProfane, isEmail));
    FlattenGroupsKeys(CardGroups(input, isProfane, isEmail));
  }

  // ---- sendEmailSchema and shareIdSchema ----

  predicate IsHexDigit(c: char)
  {
    ('0' <= c <= '9') || ('a' <= c <= 'f') || ('A' <= c <= 'F')
  }

  /** zod's `uuid()`: five groups of 8, 4, 4, 4 and 12 hexadecimal digits
      separated by hyphens. */
  predicate IsUuid(s: string)
  {
    && |s| == 36
    && (forall k :: 0 <= k < 36 && k in {8, 13, 18, 23} ==> s[k] == '-')
    && (forall k :: 0 <= k < 36 && k !in {8, 13, 18, 23} ==> IsHexDigit(s[k]))
  }

  /** A card id made by `nanoid(21)` never passes `uuid()`. */
  lemma NanoidCardIdIsNoUuid(id: string)
    requires |id| == 21
    ensures !IsUuid(id)
  {
  }

  /** `sendEmailSchema`. */
  function SendEmailIssues(cardId: Option<string>, recipientEmail: Option<string>, isEmail: string -> bool): (r: seq<Issue>)
    ensures r == [] <==>
      cardId.Some? && IsUuid(cardId.value) && recipientEmail.Some? && isEmail(recipientEmail.value)
    ensures forall i :: 0 <= i < |r| ==> r[i].field in ["cardId", "recipientEmail"]
  {
    var idIssues :=
      if cardId.None? then [Issue("cardId", ZodDefault(Required))]
      else if IsUuid(cardId.value) then [] else [Issue("cardId", ZodDefault(InvalidUuid))];
    var emailIssues :=
      if recipientEmail.None? then [Issue("recipientEmail", ZodDefault(Required))]
      else if isEmail(recipientEmail.value) then [] else [Issue("recipientEmail", Text("Invalid email address"))];
    idIssues + emailIssues
  }

  predicate IsShareIdChar(c: char)
  {
    ('a' <= c <= 'z') || ('A' <= c <= 'Z') || ('0' <= c <= '9') || c == '_' || c == '-'
  }

  /** `shareIdSchema`: the length check, then the character class. */
  function ShareIdMessages(s: string): (r: seq<Message>)
    ensures r == [] <==> |s| == 12 && forall k :: 0 <= k < |s| ==> IsShareIdChar(s[k])
  {
    if Utf16Length(s) == 12 && (forall k :: 0 <= k < |s| ==> IsShareIdChar(s[k])) then
      assert forall k :: 0 <= k < |s| ==> s[k] as int < 0x1_0000;
      []
    else
      (if Utf16Length(s) != 12 then [Text("Invalid share ID")] else [])
      + (if s != [] && forall k :: 0 <= k < |s| ==> IsShareIdChar(s[k]) then [] else [Text("Invalid share ID format")])
  }

  // ---- The theme picker ----

  /** The theme ids the theme picker offers. */
  const UiThemeKeys: seq<string> := [
    "classic", "modern", "playful", "elegant", "retro", "nature",
    "neon", "minimalist", "cosmic", "watercolor"]

  /** Of the ten themes the picker offers, `themeIdSchema` rejects exactly
      the last four. */
  lemma PickerOffersRejectedThemes()
    ensures forall k :: 0 <= k < |UiThemeKeys| ==> (ThemeAccepted(Some(UiThemeKeys[k])) <==> k < 6)
    ensures (set k | k in UiThemeKeys && !ThemeAccepted(Some(k)) :: k) == {"neon", "minimalist", "cosmic", "watercolor"}
  {
    assert ParseThemeId("neon") == None && ParseThemeId("minimalist") == None;
    assert ParseThemeId("cosmic") == None && ParseThemeId("watercolor") == None;
    assert UiThemeKeys[6] == "neon" && UiThemeKeys[7] == "minimalist";
    assert UiThemeKeys[8] == "cosmic" && UiThemeKeys[9] == "watercolor";
    assert !ThemeAccepted(Some("neon")) && !ThemeAccepted(Some("minimalist"));
    assert !ThemeAccepted(Some("cosmic")) && !ThemeAccepted(Some("watercolor"));
    var rejected := set k | k in UiThemeKeys && !ThemeAccepted(Some(k)) :: k;
    assert "neon" in rejected && "minimalist" in rejected;
    assert "cosmic" in rejected && "watercolor" in rejected;
  }
}
