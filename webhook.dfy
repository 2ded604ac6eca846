/**
 * The `/webhook` handler of index.js: the API-key gate, the message guard,
 * locale resolution, the per-client knowledge lookup, keyword intent
 * classification and the shaping of `{reply, meta}`. Every step is a pure
 * function of the request and of a static knowledge table.
 */
module Webhook {
  import opened Wrappers
  import opened Text

  // ---------------------------------------------------------------- locale

  datatype Locale = Pt | En

  /** The tag written into `meta.lang`. */
  function LocaleTag(l: Locale): (tag: string)
    ensures tag == "pt" || tag == "en"
  {
    match l
    case Pt => "pt"
    case En => "en"
  }

  /** `(lang || "pt").toLowerCase().startsWith("en") ? "en" : "pt"`. An absent or empty
      hint falls back to "pt", which never starts with "en". */
  function ResolveLocale(lang: Option<string>): (l: Locale)
    ensures l == En <==> lang.Some? && StartsWith(Lower(lang.value), "en")
  {
    var hint := if lang.None? || lang.value == "" then "pt" else lang.value;
    assert Lower("pt")[0] == 'p';
    if StartsWith(Lower(hint), "en") then En else Pt
  }

  /** The tag written into `meta.lang`, sent back as the language hint, resolves to the same locale. */
  lemma LocaleTagResolves(l: Locale)
    ensures ResolveLocale(Some(LocaleTag(l))) == l
  {
    match l
    case Pt => assert Lower("pt")[0] == 'p';
    case En => assert Lower("en") == "en";
  }

  /** Case does not matter: "EN", "En-GB" and "english" all resolve to English. */
  lemma ResolveLocaleIgnoresCase(lang: string)
    ensures ResolveLocale(Some(lang)) == ResolveLocale(Some(Lower(lang)))
  {
    LowerIdempotent(lang);
  }

  // ------------------------------------------------------------- knowledge

  /** Topic key to reply text, e.g. "horarios" and "reservas". */
  type Topics = map<string, string>

  /** Client identifier to locale to topics. */
  type KnowledgeBase = map<string, map<Locale, Topics>>

  /** The table the handler builds on every request. */
  const Knowledge: KnowledgeBase := map[
    "culinaris" := map[
      Pt := map[
        "horarios" := "Seg\U{2013}Sex 12:00\U{2013}15:00 e 19:00\U{2013}23:00. S\U{E1}b\U{2013}Dom 12:00\U{2013}23:00.",
        "reservas" := "Reservas pelo WhatsApp ou telefone. Confirmamos em minutos."
      ],
      En := map[
        "horarios" := "Mon\U{2013}Fri 12:00\U{2013}15:00 & 19:00\U{2013}23:00. Sat\U{2013}Sun 12:00\U{2013}23:00.",
        "reservas" := "Book via WhatsApp or phone. Fast confirmation."
      ]
    ]
  ]

  /** The table knows one tenant, "culinaris", with hours and bookings in both locales,
      and none of its entries is empty. */
  lemma KnowledgeTable()
    ensures Knowledge.Keys == {"culinaris"}
    ensures Knowledge["culinaris"].Keys == {Pt, En}
    ensures forall l :: l in Knowledge["culinaris"] ==> Knowledge["culinaris"][l].Keys == {"horarios", "reservas"}
    ensures forall l, k :: l in Knowledge["culinaris"] && k in Knowledge["culinaris"][l] ==> Knowledge["culinaris"][l][k] != ""
  {
  }

  /** `(knowledge[client] && knowledge[client][locale]) || {}`: a missing client or
      a client without the locale gives the empty mapping, never a failure. */
  function TopicsFor(kb: KnowledgeBase, client: Option<string>, locale: Locale): (t: Topics)
    ensures client.None? || client.value !in kb || locale !in kb[client.value] ==> t == map[]
    ensures client.Some? && client.value in kb && locale in kb[client.value] ==> t == kb[client.value][locale]
  {
    match client
    case None => map[]
    case Some(c) => if c in kb && locale in kb[c] then kb[c][locale] else map[]
  }

  // ---------------------------------------------------------------- intent

  datatype Intent = Hours | Booking | Menu | Unknown

  const HoursKeywords: seq<string> := ["hor\U{E1}rio", "horarios", "horario", "hours"]
  const BookingKeywords: seq<string> := ["reserva", "booking"]
  const MenuKeywords: seq<string> := ["menu", "card\U{E1}pio", "ementa"]

  /** The keywords of an intent; Unknown has none. */
  function KeywordsOf(i: Intent): seq<string>
  {
    match i
    case Hours => HoursKeywords
    case Booking => BookingKeywords
    case Menu => MenuKeywords
    case Unknown => []
  }

  /** Position in the `if`/`else if` chain: a smaller rank is tested first. */
  function Rank(i: Intent): (n: nat)
    ensures n <= 3
  {
    match i
    case Hours => 0
    case Booking => 1
    case Menu => 2
    case Unknown => 3
  }

  /** `kw1 || kw2 || ...` over `text.includes(kw)`, evaluated left to right. */
  predicate MentionsAny(text: string, keywords: seq<string>): (b: bool)
    ensures [] in keywords ==> b
    ensures b ==> keywords != []
    decreases |keywords|
  {
    keywords != [] && (Contains(text, keywords[0]) || MentionsAny(text, keywords[1..]))
  }

  /** The disjunction holds exactly when one of the keywords occurs in the text. */
  lemma {:induction false} MentionsAnyIff(text: string, keywords: seq<string>)
    ensures MentionsAny(text, keywords) <==> exists k :: 0 <= k < |keywords| && Contains(text, keywords[k])
    decreases |keywords|
  {
    if keywords != [] {
      MentionsAnyIff(text, keywords[1..]);
      if exists k :: 0 <= k < |keywords| && Contains(text, keywords[k]) {
        var k :| 0 <= k < |keywords| && Contains(text, keywords[k]);
        if k > 0 {
          assert keywords[1..][k - 1] == keywords[k];
        }
      }
      if exists k :: 0 <= k < |keywords[1..]| && Contains(text, keywords[1..][k]) {
        var k :| 0 <= k < |keywords[1..]| && Contains(text, keywords[1..][k]);
        assert keywords[k + 1] == keywords[1..][k];
      }
    }
  }

  /** The intents whose keywords occur in the lower-cased text. */
  function Matched(text: string): set<Intent>
  {
    (if MentionsAny(text, HoursKeywords) then {Hours} else {})
    + (if MentionsAny(text, BookingKeywords) then {Booking} else {})
    + (if MentionsAny(text, MenuKeywords) then {Menu} else {})
  }

  /** The if/else chain on `message.toLowerCase()`. First match wins: the result is
      the matched intent of least rank, and Unknown exactly when nothing matched. */
  function Classify(message: string): (i: Intent)
    ensures i == Unknown <==> Matched(Lower(message)) == {}
    ensures i != Unknown ==> i in Matched(Lower(message))
    ensures forall j :: j in Matched(Lower(message)) ==> Rank(i) <= Rank(j)
  {
    var text := Lower(message);
    if MentionsAny(text, HoursKeywords) then Hours
    else if MentionsAny(text, BookingKeywords) then Booking
    else if MentionsAny(text, MenuKeywords) then Menu
    else Unknown
  }

  /** Every keyword is already lower case, so `includes` on the lower-cased message
      finds it whatever its case in the message. */
  lemma KeywordsAreLowerCase(i: Intent, k: nat)
    requires k < |KeywordsOf(i)|
    ensures Lower(KeywordsOf(i)[k]) == KeywordsOf(i)[k]
  {
    var kw := KeywordsOf(i)[k];
    assert IsLowerCase(kw);
    LowerOfLowerCase(kw);
  }

  /** A message holding a keyword of intent `i`, in any letter case, gets `i` or an
      intent tested before it; an hours keyword therefore always gives Hours. */
  lemma KeywordDecides(message: string, i: Intent, k: nat)
    requires k < |KeywordsOf(i)|
    requires Contains(message, KeywordsOf(i)[k]) || Contains(Lower(message), KeywordsOf(i)[k])
    ensures Classify(message) != Unknown && Rank(Classify(message)) <= Rank(i)
    ensures i == Hours ==> Classify(message) == Hours
  {
    var kw := KeywordsOf(i)[k];
    KeywordsAreLowerCase(i, k);
    if Contains(message, kw) {
      ContainsLower(message, kw);
    }
    MentionsAnyIff(Lower(message), KeywordsOf(i));
    assert i in Matched(Lower(message));
  }

  /** A booking keyword beats a menu keyword: with both present and no hours keyword,
      the intent is Booking. */
  lemma BookingBeatsMenu(message: string, b: nat, m: nat)
    requires b < |BookingKeywords| && m < |MenuKeywords|
    requires Contains(message, BookingKeywords[b]) && Contains(message, MenuKeywords[m])
    requires !MentionsAny(Lower(message), HoursKeywords)
    ensures Classify(message) == Booking
  {
    KeywordDecides(message, Booking, b);
  }

  /** Classification looks only at the lower-cased message. */
  lemma ClassifyIgnoresCase(message: string)
    ensures Classify(Lower(message)) == Classify(message)
  {
    LowerIdempotent(message);
  }

  // ----------------------------------------------------------------- reply

  const HoursFallback := "Hor\U{E1}rios n\U{E3}o definidos para este cliente."
  const BookingFallback := "Reservas n\U{E3}o definidas para este cliente."

  /** The fixed menu link; the same for every client. */
  function MenuReply(l: Locale): (r: string)
    ensures r != ""
  {
    match l
    case Pt => "Menu dispon\U{ED}vel aqui: https://exemplo.com/menu"
    case En => "Menu available: https://exemplo.com/menu"
  }

  /** The greeting that lists the supported topics. */
  function GreetingReply(l: Locale): (r: string)
    ensures r != ""
  {
    match l
    case Pt => "Obrigado pela sua mensagem. Em que posso ajudar? (hor\U{E1}rios, reservas, menu)"
    case En => "Thanks for your message. How can I help? (hours, booking, menu)"
  }

  /** `kb[key] || fallback`: a missing or empty entry gives the fallback. */
  function EntryOr(kb: Topics, key: string, fallback: string): (r: string)
    ensures r == fallback || (key in kb && r == kb[key])
    ensures key in kb && kb[key] != "" ==> r == kb[key]
    ensures fallback != "" ==> r != ""
  {
    if key in kb && kb[key] != "" then kb[key] else fallback
  }

  /** The reply for a classified message. Hours and booking read the tenant's entry
      and fall back to a fixed text (Portuguese in both locales); menu and the
      greeting depend on the locale alone. The reply is never empty. */
  function Compose(kb: Topics, intent: Intent, locale: Locale): (r: string)
    ensures r != ""
    ensures intent == Hours ==> r == (if "horarios" in kb && kb["horarios"] != "" then kb["horarios"] else HoursFallback)
    ensures intent == Booking ==> r == (if "reservas" in kb && kb["reservas"] != "" then kb["reservas"] else BookingFallback)
    ensures intent == Menu ==> r == MenuReply(locale)
    ensures intent == Unknown ==> r == GreetingReply(locale)
  {
    match intent
    case Hours => EntryOr(kb, "horarios", HoursFallback)
    case Booking => EntryOr(kb, "reservas", BookingFallback)
    case Menu => MenuReply(locale)
    case Unknown => GreetingReply(locale)
  }

  /** A tenant missing from the table (or an absent client) gets the fixed fallbacks
      for hours and booking, whatever the locale. */
  lemma UnknownTenantGetsFallbacks(kb: KnowledgeBase, client: Option<string>, message: string, lang: Option<string>)
    requires client.None? || client.value !in kb
    ensures Classify(message) == Hours ==> Respond(kb, client, message, lang).reply == HoursFallback
    ensures Classify(message) == Booking ==> Respond(kb, client, message, lang).reply == BookingFallback
  {
  }

  /** The menu reply is the same for every tenant and every knowledge table. */
  lemma MenuIgnoresTenant(kb1: KnowledgeBase, kb2: KnowledgeBase, c1: Option<string>, c2: Option<string>, l: Locale)
    ensures Compose(TopicsFor(kb1, c1, l), Menu, l) == Compose(TopicsFor(kb2, c2, l), Menu, l)
  {
  }

  // -------------------------------------------------------------- response

  datatype Meta = Meta(client: string, lang: string)
  datatype Reply = Reply(reply: string, meta: Meta)

  /** `v || d` on a string that may be absent: an absent or empty string is falsy. */
  function OrElse(v: Option<string>, d: string): (r: string)
    ensures d != "" ==> r != ""
    ensures v.Some? && v.value != "" ==> r == v.value
    ensures v.None? || v.value == "" ==> r == d
  {
    if v.Some? && v.value != "" then v.value else d
  }

  /** `client || "default"`. */
  function ClientLabel(client: Option<string>): (tag: string)
    ensures tag != ""
    ensures client.Some? && client.value != "" ==> tag == client.value
    ensures client.None? || client.value == "" ==> tag == "default"
  {
    OrElse(client, "default")
  }

  /** The 200 response for a request that passed both guards: the reply is never empty,
      `meta.client` echoes the client or says "default", `meta.lang` is the resolved locale. */
  function Respond(kb: KnowledgeBase, client: Option<string>, message: string, lang: Option<string>): (r: Reply)
    ensures r.reply != ""
    ensures r.meta.client == (if client.Some? && client.value != "" then client.value else "default")
    ensures r.meta.lang == LocaleTag(ResolveLocale(lang))
    ensures r.reply == Compose(TopicsFor(kb, client, ResolveLocale(lang)), Classify(message), ResolveLocale(lang))
  {
    var locale := ResolveLocale(lang);
    var topics := TopicsFor(kb, client, locale);
    Reply(Compose(topics, Classify(message), locale), Meta(ClientLabel(client), LocaleTag(locale)))
  }

  // --------------------------------------------------------------- gateway

  /** `process.env.API_KEY || "dev-key"`. */
  function ConfiguredKey(env: Option<string>): (key: string)
    ensures key != ""
    ensures env.Some? && env.value != "" ==> key == env.value
    ensures env.None? || env.value == "" ==> key == "dev-key"
  {
    OrElse(env, "dev-key")
  }

  /** The `auth` middleware: `!key || key !== API_KEY` is rejected. With a configured
      key that is never empty, this admits exactly the header equal to it. */
  function Authorized(apiKey: string, header: Option<string>): (ok: bool)
    ensures apiKey != "" ==> (ok <==> header == Some(apiKey))
  {
    header.Some? && header.value != "" && header.value == apiKey
  }

  /** The JSON body fields the handler reads; JSON values of other types are not modelled. */
  datatype Body = Body(client: Option<string>, message: Option<string>, lang: Option<string>)

  datatype HttpResponse =
    | Success(payload: Reply)
    | Failure(status: nat, error: string)

  /** `POST /webhook` on a parsed body: 401 before the handler reads the body, then 400 for a missing or empty
      message (a missing body counts as `{}`), otherwise 200 with the composed reply. */
  function HandleWebhook(apiKey: string, header: Option<string>, body: Option<Body>): (r: HttpResponse)
    ensures !Authorized(apiKey, header) ==> r == Failure(401, "unauthorized")
    ensures Authorized(apiKey, header) && (body.None? || body.value.message.None? || body.value.message.value == "")
      ==> r == Failure(400, "message required")
    ensures r.Success? <==> Authorized(apiKey, header) && body.Some? && body.value.message.Some? && body.value.message.value != ""
    ensures r.Success? ==>
              r.payload.reply != ""
              && r.payload == Respond(Knowledge, body.value.client, body.value.message.value, body.value.lang)
  {
    if !Authorized(apiKey, header) then Failure(401, "unauthorized")
    else
      var b := if body.Some? then body.value else Body(None, None, None);
      if b.message.None? || b.message.value == "" then Failure(400, "message required")
      else Success(Respond(Knowledge, b.client, b.message.value, b.lang))
  }

  /** A rejected key is rejected whatever the body says. */
  lemma UnauthorizedIgnoresBody(apiKey: string, header: Option<string>, b1: Option<Body>, b2: Option<Body>)
    requires !Authorized(apiKey, header)
    ensures HandleWebhook(apiKey, header, b1) == HandleWebhook(apiKey, header, b2) == Failure(401, "unauthorized")
  {
  }

  // --------------------------------------------------------------- examples

  /** A text in which none of the keywords can start mentions none of them. */
  lemma NoKeyword(text: string, keywords: seq<string>)
    requires forall k :: 0 <= k < |keywords| ==> keywords[k] != []
    requires forall j, k :: 0 <= j < |text| && 0 <= k < |keywords| ==> text[j] != keywords[k][0]
    ensures !MentionsAny(text, keywords)
  {
    MentionsAnyIff(text, keywords);
    forall k | 0 <= k < |keywords|
      ensures !Contains(text, keywords[k])
    {
      AbsentFirstChar(text, keywords[k]);
    }
  }

  // The message is a parameter pinned by `requires`: a string literal inside the
  // postcondition would make the verifier unfold the whole pipeline on it.

  /** The Portuguese hours question is an hours request. */
  lemma HoursQuestionPt(message: string)
    requires message == "Qual o hor\U{E1}rio?"
    ensures Classify(message) == Hours
  {
    assert OccursAt(message, HoursKeywords[0], 7);
    ContainsIff(message, HoursKeywords[0]);
    KeywordDecides(message, Hours, 0);
  }

  /** The English hours question is an hours request too. */
  lemma HoursQuestionEn(message: string)
    requires message == "What are your hours?"
    ensures Classify(message) == Hours
  {
    assert OccursAt(message, HoursKeywords[3], 14);
    ContainsIff(message, HoursKeywords[3]);
    KeywordDecides(message, Hours, 3);
  }

  /** An hours request for "culinaris", in either language, gets that tenant's hours
      in that language, with the tenant and the language echoed in `meta`. */
  lemma CulinarisHours(message: string, c: string, l: Locale)
    requires Classify(message) == Hours
    requires c == "culinaris"
    ensures Respond(Knowledge, Some(c), message, Some(LocaleTag(l)))
      == Reply(Knowledge[c][l]["horarios"], Meta(c, LocaleTag(l)))
  {
    LocaleTagResolves(l);
    var topics := Knowledge[c][l];
    assert "horarios" in topics && topics["horarios"] != "";
  }

  /** "reserva" is a booking request; with `UnknownTenantGetsFallbacks` an unknown
      tenant sending it gets the booking fallback. */
  lemma ExampleReservaIsBooking(message: string)
    requires message == "reserva"
    ensures Classify(message) == Booking
  {
    assert Lower(message) == message by {
      assert IsLowerCase(message);
      LowerOfLowerCase(message);
    }
    assert !MentionsAny(message, HoursKeywords) by {
      NoKeyword(message, HoursKeywords);
    }
    assert MentionsAny(message, BookingKeywords) by {
      assert StartsWith(message, BookingKeywords[0]);
    }
  }

  /** A plain greeting names no topic. */
  lemma GreetingIsUnknown(message: string)
    requires message == "ol\U{E1}"
    ensures Classify(message) == Unknown
  {
    assert IsLowerCase(message);
    LowerOfLowerCase(message);
    NoKeyword(message, HoursKeywords);
    NoKeyword(message, BookingKeywords);
    NoKeyword(message, MenuKeywords);
  }

  /** A message naming no topic, sent with neither client nor language, gets the
      Portuguese help text and the "default" client label, whatever the table holds. */
  lemma AnonymousGreeting(kb: KnowledgeBase, message: string)
    requires Classify(message) == Unknown
    ensures Respond(kb, None, message, None) == Reply(GreetingReply(Pt), Meta("default", "pt"))
  {
  }
}
