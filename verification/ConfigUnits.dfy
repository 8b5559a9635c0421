/** The units a configuration describes (channel bots and webhook routes), each
    named by an identity, and the one-unit slices a unit is rebuilt from. */
module ConfigUnits {
  import opened JsText
  import opened CanonicalJson

  type Record = j: Json | j.Obj? witness Obj([])

  datatype Block = Block(bots: seq<Record>, rest: Json)

  /** The part of the configuration file the reconciler reads. */
  datatype Config = Config(
    telegram: Option<Block>,
    slack: Option<Block>,
    whatsapp: Option<seq<Record>>,
    discordToken: Option<Text>,
    emailImapHost: Option<Text>,
    emailUser: Option<Text>,
    emailPassword: Option<Text>,
    emailSmtpHost: Option<Text>,
    emailImapPort: Json,
    emailSmtpPort: Json,
    emailTrustedAuthservId: Json,
    webhooks: Option<map<string, Record>>,
    rest: Json)

  /** The bot-key derivations, whatever they compute. */
  datatype Derive = Derive(
    bot: Record -> string,
    whatsapp: Record -> string,
    discord: Text -> string,
    email: (Text, Text) -> string)

  predicate Truthy(t: Option<Text>) {
    t.Some? && t.value != []
  }

  predicate HasEmail(c: Config) {
    Truthy(c.emailImapHost) && Truthy(c.emailUser) && Truthy(c.emailPassword) && Truthy(c.emailSmtpHost)
  }

  function BlockBots(block: Option<Block>): seq<Record> {
    if block.Some? then block.value.bots else []
  }

  function WhatsApps(c: Config): seq<Record> {
    if c.whatsapp.Some? then c.whatsapp.value else []
  }

  // ---- Identities ----------------------------------------------------------

  function Identity(platform: string, key: string): string {
    platform + ":" + key
  }

  /** Cutting an identity at its first colon; none when nothing precedes it. */
  function SplitIdentity(id: string): Option<(string, string)> {
    var colon := IndexOfColon(id);
    if colon == 0 || colon == |id| then None else Some((id[..colon], id[colon + 1..]))
  }

  function IndexOfColon(id: string): (n: nat)
    ensures n <= |id| && (n < |id| ==> id[n] == ':') && ':' !in id[..n]
  {
    if id == "" then 0 else if id[0] == ':' then 0 else 1 + IndexOfColon(id[1..])
  }

  lemma {:induction false} ColonAfter(platform: string, key: string)
    requires ':' !in platform
    ensures IndexOfColon(Identity(platform, key)) == |platform|
  {
    if platform != "" {
      ColonAfter(platform[1..], key);
      assert Identity(platform, key)[1..] == Identity(platform[1..], key);
      assert platform[0] in platform;
    }
  }

  lemma SplitsBack(platform: string, key: string)
    requires platform != "" && ':' !in platform
    ensures SplitIdentity(Identity(platform, key)) == Some((platform, key))
  {
    ColonAfter(platform, key);
    assert Identity(platform, key)[..|platform|] == platform;
    assert Identity(platform, key)[|platform| + 1..] == key;
  }

  // ---- Enumeration ---------------------------------------------------------

  /** Identity to fingerprint for one platform's list; a later duplicate wins. */
  function ListUnits(platform: string, key: Record -> string, bots: seq<Record>): map<string, Text> {
    if bots == [] then map[]
    else
      var bot := bots[|bots| - 1];
      ListUnits(platform, key, bots[..|bots| - 1])[Identity(platform, key(bot)) := Fingerprint(bot)]
  }

  function DiscordUnits(d: Derive, c: Config): map<string, Text> {
    if Truthy(c.discordToken)
    then map[Identity("discord", d.discord(c.discordToken.value)) := Fingerprint(Str(c.discordToken.value))]
    else map[]
  }

  /** The email fields that take part in the adapter's construction. */
  function EmailEntry(c: Config): Json
    requires HasEmail(c)
  {
    Obj([Field(Ascii("imapHost"), Str(c.emailImapHost.value)),
         Field(Ascii("imapPort"), c.emailImapPort),
         Field(Ascii("user"), Str(c.emailUser.value)),
         Field(Ascii("password"), Str(c.emailPassword.value)),
         Field(Ascii("smtpHost"), Str(c.emailSmtpHost.value)),
         Field(Ascii("smtpPort"), c.emailSmtpPort),
         Field(Ascii("trustedAuthservId"), c.emailTrustedAuthservId)])
  }

  function Ascii(s: string): Text {
    seq(|s|, i requires 0 <= i < |s| => (s[i] as int) % 0x1_0000)
  }

  function EmailUnits(d: Derive, c: Config): map<string, Text> {
    if HasEmail(c)
    then map[Identity("email", d.email(c.emailUser.value, c.emailImapHost.value)) := Fingerprint(EmailEntry(c))]
    else map[]
  }

  function TelegramUnits(d: Derive, c: Config): map<string, Text> {
    ListUnits("telegram", d.bot, BlockBots(c.telegram))
  }

  function SlackUnits(d: Derive, c: Config): map<string, Text> {
    ListUnits("slack", d.bot, BlockBots(c.slack))
  }

  function WhatsAppUnits(d: Derive, c: Config): map<string, Text> {
    ListUnits("whatsapp", d.whatsapp, WhatsApps(c))
  }

  function Bots(d: Derive, c: Config): map<string, Text> {
    TelegramUnits(d, c) + SlackUnits(d, c) + WhatsAppUnits(d, c) + DiscordUnits(d, c) + EmailUnits(d, c)
  }

  function Webhooks(c: Config): map<string, Text> {
    if c.webhooks.Some? then map h | h in c.webhooks.value :: Fingerprint(c.webhooks.value[h]) else map[]
  }

  lemma ListOneMore(platform: string, key: Record -> string, bots: seq<Record>, i: nat)
    requires i < |bots|
    ensures ListUnits(platform, key, bots[..i + 1]) ==
      ListUnits(platform, key, bots[..i])[Identity(platform, key(bots[i])) := Fingerprint(bots[i])]
  {
    assert bots[..i + 1][..i] == bots[..i];
  }

  lemma UpdateInside(before: map<string, Text>, m: map<string, Text>, k: string, v: Text)
    ensures (before + m)[k := v] == before + m[k := v]
  {
  }

  method AddList(before: map<string, Text>, platform: string, key: Record -> string, bots: seq<Record>)
    returns (out: map<string, Text>)
    ensures out == before + ListUnits(platform, key, bots)
  {
    out := before;
    for i := 0 to |bots|
      invariant out == before + ListUnits(platform, key, bots[..i])
    {
      ListOneMore(platform, key, bots, i);
      UpdateInside(before, ListUnits(platform, key, bots[..i]), Identity(platform, key(bots[i])), Fingerprint(bots[i]));
      out := out[Identity(platform, key(bots[i])) := Fingerprint(bots[i])];
    }
    assert bots[..|bots|] == bots;
  }

  /** The loops that fill the map, one after another. */
  method EnumerateBots(d: Derive, c: Config) returns (out: map<string, Text>)
    ensures out == Bots(d, c)
  {
    out := AddList(map[], "telegram", d.bot, BlockBots(c.telegram));
    UnionWithNone(TelegramUnits(d, c));
    out := AddList(out, "slack", d.bot, BlockBots(c.slack));
    out := AddList(out, "whatsapp", d.whatsapp, WhatsApps(c));
    UnionWithNone(out);
    if Truthy(c.discordToken) {
      var token := c.discordToken.value;
      UpdateIsUnion(out, Identity("discord", d.discord(token)), Fingerprint(Str(token)));
      out := out[Identity("discord", d.discord(token)) := Fingerprint(Str(token))];
    }
    UnionWithNone(out);
    if HasEmail(c) {
      var id := Identity("email", d.email(c.emailUser.value, c.emailImapHost.value));
      UpdateIsUnion(out, id, Fingerprint(EmailEntry(c)));
      out := out[id := Fingerprint(EmailEntry(c))];
    }
  }

  lemma UnionWithNone(m: map<string, Text>)
    ensures m + map[] == m && map[] + m == m
  {
  }

  lemma UpdateIsUnion(m: map<string, Text>, k: string, v: Text)
    ensures m[k := v] == m + map[k := v]
  {
  }

  // ---- Slices --------------------------------------------------------------

  function ClearBotBlocks(c: Config): Config {
    c.(telegram := None, slack := None, whatsapp := None, discordToken := None,
       emailImapHost := None, emailUser := None, emailPassword := None, emailSmtpHost := None,
       webhooks := None)
  }

  function FindFirst(key: Record -> string, bots: seq<Record>, wanted: string): (r: Option<Record>)
    ensures r.Some? ==> r.value in bots && key(r.value) == wanted
    ensures r.None? ==> forall b | b in bots :: key(b) != wanted
  {
    if bots == [] then None
    else if key(bots[0]) == wanted then Some(bots[0])
    else FindFirst(key, bots[1..], wanted)
  }

  /** A configuration holding exactly the named bot. */
  function SliceForBot(d: Derive, c: Config, id: string): Option<Config> {
    match SplitIdentity(id)
    case None => None
    case Some((platform, key)) =>
      var empty := ClearBotBlocks(c);
      if platform == "telegram" then
        match FindFirst(d.bot, BlockBots(c.telegram), key)
        case None => None
        case Some(bot) => Some(empty.(telegram := Some(c.telegram.value.(bots := [bot]))))
      else if platform == "slack" then
        match FindFirst(d.bot, BlockBots(c.slack), key)
        case None => None
        case Some(app) => Some(empty.(slack := Some(c.slack.value.(bots := [app]))))
      else if platform == "whatsapp" then
        match FindFirst(d.whatsapp, WhatsApps(c), key)
        case None => None
        case Some(wa) => Some(empty.(whatsapp := Some([wa])))
      else if platform == "discord" then
        if Truthy(c.discordToken) && d.discord(c.discordToken.value) == key
        then Some(empty.(discordToken := c.discordToken)) else None
      else if platform == "email" then
        if !HasEmail(c) || d.email(c.emailUser.value, c.emailImapHost.value) != key then None
        else Some(empty.(emailImapHost := c.emailImapHost, emailUser := c.emailUser,
                         emailPassword := c.emailPassword, emailSmtpHost := c.emailSmtpHost))
      else None
  }

  function SliceForWebhook(c: Config, hook: string): Option<Config> {
    if c.webhooks.Some? && hook in c.webhooks.value
    then Some(ClearBotBlocks(c).(webhooks := Some(map[hook := c.webhooks.value[hook]])))
    else None
  }

  // ---- Slicing agrees with enumerating -------------------------------------

  /** The last entry of a list that derives the wanted key. */
  function FindLast(key: Record -> string, bots: seq<Record>, wanted: string): Option<Record> {
    if bots == [] then None
    else if key(bots[|bots| - 1]) == wanted then Some(bots[|bots| - 1])
    else FindLast(key, bots[..|bots| - 1], wanted)
  }

  lemma {:induction false} ListLookup(platform: string, key: Record -> string, bots: seq<Record>, id: string)
    requires platform != "" && ':' !in platform
    ensures id in ListUnits(platform, key, bots) <==>
      SplitIdentity(id).Some? && id == Identity(platform, SplitIdentity(id).value.1)
      && SplitIdentity(id).value.0 == platform && FindLast(key, bots, SplitIdentity(id).value.1).Some?
    ensures id in ListUnits(platform, key, bots) ==>
      ListUnits(platform, key, bots)[id] == Fingerprint(FindLast(key, bots, SplitIdentity(id).value.1).value)
  {
    if bots != [] {
      var bot := bots[|bots| - 1];
      ListLookup(platform, key, bots[..|bots| - 1], id);
      SplitsBack(platform, key(bot));
    }
  }

  function PlatformUnits(d: Derive, c: Config, platform: string): map<string, Text> {
    if platform == "telegram" then TelegramUnits(d, c)
    else if platform == "slack" then SlackUnits(d, c)
    else if platform == "whatsapp" then WhatsAppUnits(d, c)
    else if platform == "discord" then DiscordUnits(d, c)
    else if platform == "email" then EmailUnits(d, c)
    else map[]
  }

  lemma OwnPlatformOnly(d: Derive, c: Config, platform: string, id: string)
    requires id in PlatformUnits(d, c, platform)
    ensures SplitIdentity(id).Some? && SplitIdentity(id).value.0 == platform
  {
    if platform == "telegram" {
      ListLookup(platform, d.bot, BlockBots(c.telegram), id);
    } else if platform == "slack" {
      ListLookup(platform, d.bot, BlockBots(c.slack), id);
    } else if platform == "whatsapp" {
      ListLookup(platform, d.whatsapp, WhatsApps(c), id);
    } else if platform == "discord" {
      SplitsBack(platform, d.discord(c.discordToken.value));
    } else {
      SplitsBack(platform, d.email(c.emailUser.value, c.emailImapHost.value));
    }
  }

  /** An identity is looked up in its own platform's list and nowhere else. */
  lemma BotLookup(d: Derive, c: Config, id: string)
    ensures id in Bots(d, c) <==>
      SplitIdentity(id).Some? && id in PlatformUnits(d, c, SplitIdentity(id).value.0)
    ensures id in Bots(d, c) ==> Bots(d, c)[id] == PlatformUnits(d, c, SplitIdentity(id).value.0)[id]
  {
    if id in TelegramUnits(d, c) { OwnPlatformOnly(d, c, "telegram", id); }
    if id in SlackUnits(d, c) { OwnPlatformOnly(d, c, "slack", id); }
    if id in WhatsAppUnits(d, c) { OwnPlatformOnly(d, c, "whatsapp", id); }
    if id in DiscordUnits(d, c) { OwnPlatformOnly(d, c, "discord", id); }
    if id in EmailUnits(d, c) { OwnPlatformOnly(d, c, "email", id); }
  }

  /** A Discord bot is listed exactly for a token that is not empty, and a token
      that changes is seen. */
  lemma DiscordListed(d: Derive, c: Config, id: string)
    ensures SplitIdentity(id).Some? && SplitIdentity(id).value.0 == "discord" ==>
      (id in Bots(d, c) <==>
        c.discordToken.Some? && c.discordToken.value != [] && id == "discord:" + d.discord(c.discordToken.value))
    ensures forall b: Config :: id in DiscordUnits(d, c) && id in DiscordUnits(d, b) ==>
      (DiscordUnits(d, c)[id] == DiscordUnits(d, b)[id] <==> c.discordToken == b.discordToken)
  {
    BotLookup(d, c, id);
    assert "discord" + ":" == "discord:";
    if c.discordToken.Some? {
      SplitsBack("discord", d.discord(c.discordToken.value));
    }
    forall b: Config | id in DiscordUnits(d, c) && id in DiscordUnits(d, b)
      ensures DiscordUnits(d, c)[id] == DiscordUnits(d, b)[id] <==> c.discordToken == b.discordToken
    {
      FingerprintCanonical(Str(c.discordToken.value), Str(b.discordToken.value));
    }
  }

  /** An email bot is listed exactly when both hosts, the user and the password are set. */
  lemma EmailListed(d: Derive, c: Config, id: string)
    requires SplitIdentity(id).Some? && SplitIdentity(id).value.0 == "email"
    ensures id in Bots(d, c) <==>
      && c.emailImapHost.Some? && c.emailImapHost.value != [] && c.emailUser.Some? && c.emailUser.value != []
      && c.emailPassword.Some? && c.emailPassword.value != []
      && c.emailSmtpHost.Some? && c.emailSmtpHost.value != []
      && id == "email:" + d.email(c.emailUser.value, c.emailImapHost.value)
  {
    BotLookup(d, c, id);
    assert "email" + ":" == "email:";
    if HasEmail(c) {
      SplitsBack("email", d.email(c.emailUser.value, c.emailImapHost.value));
    }
  }

  /** The file's remaining email settings are values without a repeated key. */
  ghost predicate EmailWellFormed(c: Config) {
    WellFormed(c.emailImapPort) && WellFormed(c.emailSmtpPort) && WellFormed(c.emailTrustedAuthservId)
  }

  ghost predicate SameEmail(a: Config, b: Config) {
    && a.emailImapHost == b.emailImapHost && Denote(a.emailImapPort) == Denote(b.emailImapPort)
    && a.emailUser == b.emailUser && a.emailPassword == b.emailPassword
    && a.emailSmtpHost == b.emailSmtpHost && Denote(a.emailSmtpPort) == Denote(b.emailSmtpPort)
    && Denote(a.emailTrustedAuthservId) == Denote(b.emailTrustedAuthservId)
  }

  /** What a property of an object means, absent ones included. */
  function Looked(m: map<Text, Meaning>, k: Text): Meaning {
    if k in m then m[k] else MUndefined
  }

  lemma FieldMeaning(fs: seq<Field>, i: nat)
    requires i < |fs| && DistinctKeys(fs)
    ensures Looked(DenoteFields(fs), fs[i].key) == Denote(fs[i].value)
  {
    FieldLookup(fs, fs[i].key);
    assert fs[i] in fs;
    assert forall f :: f in fs && f.key == fs[i].key ==> f == fs[i];
  }

  ghost predicate Parallel(fs: seq<Field>, gs: seq<Field>) {
    |fs| == |gs| && forall i :: 0 <= i < |fs| ==> fs[i].key == gs[i].key
  }

  ghost predicate SameValues(fs: seq<Field>, gs: seq<Field>) {
    |fs| == |gs| && forall i :: 0 <= i < |fs| ==> Denote(fs[i].value) == Denote(gs[i].value)
  }

  /** Objects with the same keys mean the same exactly when each property does. */
  lemma {:induction false} SameFields(fs: seq<Field>, gs: seq<Field>)
    requires Parallel(fs, gs) && DistinctKeys(fs) && DistinctKeys(gs)
    ensures DenoteFields(fs) == DenoteFields(gs) <==> SameValues(fs, gs)
  {
    if DenoteFields(fs) == DenoteFields(gs) {
      forall i | 0 <= i < |fs| ensures Denote(fs[i].value) == Denote(gs[i].value) {
        FieldMeaning(fs, i);
        FieldMeaning(gs, i);
      }
    }
    if fs != [] && SameValues(fs, gs) {
      var fs', gs' := fs[1..], gs[1..];
      assert forall i :: 0 <= i < |fs'| ==> fs'[i] == fs[i + 1] && gs'[i] == gs[i + 1];
      SameFields(fs', gs');
      assert Denote(fs[0].value) == Denote(gs[0].value);
    }
  }

  lemma NamesDiffer()
    ensures var k := [Ascii("imapHost"), Ascii("imapPort"), Ascii("user"), Ascii("password"), Ascii("smtpHost"),
                      Ascii("smtpPort"), Ascii("trustedAuthservId")];
      forall i, j :: 0 <= i < j < 7 ==> k[i] != k[j]
  {
    var k := [Ascii("imapHost"), Ascii("imapPort"), Ascii("user"), Ascii("password"), Ascii("smtpHost"),
              Ascii("smtpPort"), Ascii("trustedAuthservId")];
    var mark := (t: Text) => if |t| == 8 then t[0] + 1000 * t[4] else |t|;
    assert mark(k[0]) == 72105 && mark(k[1]) == 80105;
    assert mark(k[2]) == 4;
    assert mark(k[3]) == 119112;
    assert mark(k[4]) == 72115 && mark(k[5]) == 80115;
    assert mark(k[6]) == 17;
  }

  lemma EmailKeysDiffer(c: Config)
    requires HasEmail(c) && EmailWellFormed(c)
    ensures DistinctKeys(EmailEntry(c).fields) && WellFormed(EmailEntry(c))
  {
    NamesDiffer();
    var fs := EmailEntry(c).fields;
    var k := [Ascii("imapHost"), Ascii("imapPort"), Ascii("user"), Ascii("password"), Ascii("smtpHost"),
              Ascii("smtpPort"), Ascii("trustedAuthservId")];
    assert forall i :: 0 <= i < 7 ==> fs[i].key == k[i];
  }

  /** Two files that list one email bot fingerprint it alike exactly when none of
      its seven settings changed: a new password or port is seen. */
  lemma EmailFingerprintIff(d: Derive, a: Config, b: Config, id: string)
    requires EmailWellFormed(a) && EmailWellFormed(b)
    requires id in EmailUnits(d, a) && id in EmailUnits(d, b)
    ensures EmailUnits(d, a)[id] == EmailUnits(d, b)[id] <==> SameEmail(a, b)
  {
    EmailKeysDiffer(a);
    EmailKeysDiffer(b);
    SameEntry(a, b);
    SameObject(EmailEntry(a), EmailEntry(b));
  }

  lemma SameEntry(a: Config, b: Config)
    requires HasEmail(a) && HasEmail(b)
    ensures Parallel(EmailEntry(a).fields, EmailEntry(b).fields)
    ensures SameEmail(a, b) <==> SameValues(EmailEntry(a).fields, EmailEntry(b).fields)
  {
    var fs, gs := EmailEntry(a).fields, EmailEntry(b).fields;
    if SameValues(fs, gs) {
      assert Denote(fs[0].value) == Denote(gs[0].value) && Denote(fs[1].value) == Denote(gs[1].value);
      assert Denote(fs[2].value) == Denote(gs[2].value) && Denote(fs[3].value) == Denote(gs[3].value);
      assert Denote(fs[4].value) == Denote(gs[4].value) && Denote(fs[5].value) == Denote(gs[5].value);
      assert Denote(fs[6].value) == Denote(gs[6].value);
    }
  }

  lemma SameObject(v: Json, w: Json)
    requires v.Obj? && w.Obj? && WellFormed(v) && WellFormed(w) && Parallel(v.fields, w.fields)
    ensures Fingerprint(v) == Fingerprint(w) <==> SameValues(v.fields, w.fields)
  {
    FingerprintCanonical(v, w);
    SameFields(v.fields, w.fields);
  }

  /** Every webhook route is listed, and an edit to it is seen exactly when its meaning changed. */
  lemma WebhookListed(a: Config, b: Config, hook: string)
    ensures hook in Webhooks(a) <==> a.webhooks.Some? && hook in a.webhooks.value
    ensures hook in Webhooks(a) && hook in Webhooks(b) ==>
      var x, y := a.webhooks.value[hook], b.webhooks.value[hook];
      WellFormed(x) && WellFormed(y) ==> (Webhooks(a)[hook] == Webhooks(b)[hook] <==> Denote(x) == Denote(y))
  {
    if hook in Webhooks(a) && hook in Webhooks(b) {
      var x, y := a.webhooks.value[hook], b.webhooks.value[hook];
      if WellFormed(x) && WellFormed(y) {
        FingerprintCanonical(x, y);
      }
    }
  }

  lemma {:induction false} FirstAndLastExist(key: Record -> string, bots: seq<Record>, wanted: string)
    ensures FindLast(key, bots, wanted).Some? <==> exists b :: b in bots && key(b) == wanted
    ensures FindLast(key, bots, wanted).Some? ==>
      FindLast(key, bots, wanted).value in bots && key(FindLast(key, bots, wanted).value) == wanted
  {
    if bots != [] && key(bots[|bots| - 1]) != wanted {
      FirstAndLastExist(key, bots[..|bots| - 1], wanted);
      assert bots == bots[..|bots| - 1] + [bots[|bots| - 1]];
    }
  }

  /** The list a platform's entries sit in, and how it derives their keys. */
  predicate Listed(platform: string) {
    platform == "telegram" || platform == "slack" || platform == "whatsapp"
  }

  function KeyOf(d: Derive, platform: string): Record -> string {
    if platform == "whatsapp" then d.whatsapp else d.bot
  }

  function EntriesOf(c: Config, platform: string): seq<Record> {
    if platform == "telegram" then BlockBots(c.telegram)
    else if platform == "slack" then BlockBots(c.slack)
    else if platform == "whatsapp" then WhatsApps(c)
    else []
  }

  lemma SplitRejoins(id: string)
    requires SplitIdentity(id).Some?
    ensures Identity(SplitIdentity(id).value.0, SplitIdentity(id).value.1) == id
  {
    var n := IndexOfColon(id);
    assert id == id[..n] + [id[n]] + id[n + 1..];
  }

  /** A listed platform's identity is enumerated exactly when an entry derives its
      key; the fingerprint recorded is the last such entry's. */
  lemma ListedBot(d: Derive, c: Config, id: string)
    requires SplitIdentity(id).Some? && Listed(SplitIdentity(id).value.0)
    ensures var (platform, key) := SplitIdentity(id).value;
      var keyOf, entries := KeyOf(d, platform), EntriesOf(c, platform);
      && (id in Bots(d, c) <==> FindLast(keyOf, entries, key).Some?)
      && (FindFirst(keyOf, entries, key).Some? <==> FindLast(keyOf, entries, key).Some?)
      && (id in Bots(d, c) ==> Bots(d, c)[id] == Fingerprint(FindLast(keyOf, entries, key).value))
  {
    var (platform, key) := SplitIdentity(id).value;
    BotLookup(d, c, id);
    SplitRejoins(id);
    ListLookup(platform, KeyOf(d, platform), EntriesOf(c, platform), id);
    FirstAndLastExist(KeyOf(d, platform), EntriesOf(c, platform), key);
  }

  lemma OneBotList(platform: string, key: Record -> string, bot: Record)
    ensures ListUnits(platform, key, [bot]) == map[Identity(platform, key(bot)) := Fingerprint(bot)]
  {
    assert [bot][..0] == [];
  }

  /** The fingerprint of the entry a slice picks: the first one of that key. */
  ghost function SlicedFingerprint(d: Derive, c: Config, id: string): Text
    requires id in Bots(d, c)
  {
    BotLookup(d, c, id);
    var (platform, key) := SplitIdentity(id).value;
    if Listed(platform) then
      ListedBot(d, c, id);
      Fingerprint(FindFirst(KeyOf(d, platform), EntriesOf(c, platform), key).value)
    else Bots(d, c)[id]
  }

  lemma OnlyTelegram(d: Derive, c: Config, id: string)
    requires SplitIdentity(id).Some? && SplitIdentity(id).value.0 == "telegram"
    ensures SliceForBot(d, c, id).Some? ==>
      var s := SliceForBot(d, c, id).value;
      Bots(d, s) == TelegramUnits(d, s) && EntriesOf(s, "telegram") == [FirstEntry(d, c, id)]
      && Webhooks(s) == map[]
  {
    if SliceForBot(d, c, id).Some? {
      UnionWithNone(TelegramUnits(d, SliceForBot(d, c, id).value));
    }
  }

  lemma OnlySlack(d: Derive, c: Config, id: string)
    requires SplitIdentity(id).Some? && SplitIdentity(id).value.0 == "slack"
    ensures SliceForBot(d, c, id).Some? ==>
      var s := SliceForBot(d, c, id).value;
      Bots(d, s) == SlackUnits(d, s) && EntriesOf(s, "slack") == [FirstEntry(d, c, id)]
      && Webhooks(s) == map[]
  {
    if SliceForBot(d, c, id).Some? {
      UnionWithNone(SlackUnits(d, SliceForBot(d, c, id).value));
    }
  }

  lemma OnlyWhatsApp(d: Derive, c: Config, id: string)
    requires SplitIdentity(id).Some? && SplitIdentity(id).value.0 == "whatsapp"
    ensures SliceForBot(d, c, id).Some? ==>
      var s := SliceForBot(d, c, id).value;
      Bots(d, s) == WhatsAppUnits(d, s) && EntriesOf(s, "whatsapp") == [FirstEntry(d, c, id)]
      && Webhooks(s) == map[]
  {
    if SliceForBot(d, c, id).Some? {
      UnionWithNone(WhatsAppUnits(d, SliceForBot(d, c, id).value));
    }
  }

  /** The entry a slice keeps. */
  function FirstEntry(d: Derive, c: Config, id: string): (r: Record)
    requires SplitIdentity(id).Some?
  {
    var (platform, key) := SplitIdentity(id).value;
    match FindFirst(KeyOf(d, platform), EntriesOf(c, platform), key)
    case None => Obj([])
    case Some(bot) => bot
  }

  lemma ListedSlice(d: Derive, c: Config, id: string)
    requires SplitIdentity(id).Some? && Listed(SplitIdentity(id).value.0)
    ensures SliceForBot(d, c, id).Some? <==> id in Bots(d, c)
    ensures id in Bots(d, c) ==>
      var s := SliceForBot(d, c, id).value;
      Bots(d, s) == map[id := SlicedFingerprint(d, c, id)] && Webhooks(s) == map[]
  {
    ListedBot(d, c, id);
    SplitRejoins(id);
    var platform := SplitIdentity(id).value.0;
    OneBotList(platform, KeyOf(d, platform), FirstEntry(d, c, id));
    if platform == "telegram" {
      OnlyTelegram(d, c, id);
    } else if platform == "slack" {
      OnlySlack(d, c, id);
    } else {
      OnlyWhatsApp(d, c, id);
    }
  }

  lemma ScalarSlice(d: Derive, c: Config, id: string)
    requires SplitIdentity(id).Some? && !Listed(SplitIdentity(id).value.0)
    ensures SliceForBot(d, c, id).Some? <==> id in Bots(d, c)
    ensures id in Bots(d, c) ==>
      var s := SliceForBot(d, c, id).value;
      Bots(d, s) == map[id := Bots(d, c)[id]] && Webhooks(s) == map[]
  {
    BotLookup(d, c, id);
    SplitRejoins(id);
    if SliceForBot(d, c, id).Some? {
      var s := SliceForBot(d, c, id).value;
      UnionWithNone(DiscordUnits(d, s));
      UnionWithNone(EmailUnits(d, s));
    }
  }

  /** For every configuration and identity: there is a slice exactly when the
      identity is enumerated, and the slice describes that one unit and no other,
      as the first entry deriving the key. */
  lemma SliceIsOneBot(d: Derive, c: Config, id: string)
    ensures SliceForBot(d, c, id).Some? <==> id in Bots(d, c)
    ensures id in Bots(d, c) ==>
      var s := SliceForBot(d, c, id).value;
      Bots(d, s) == map[id := SlicedFingerprint(d, c, id)] && Webhooks(s) == map[]
  {
    BotLookup(d, c, id);
    if SplitIdentity(id).Some? {
      if Listed(SplitIdentity(id).value.0) {
        ListedSlice(d, c, id);
      } else {
        ScalarSlice(d, c, id);
      }
    }
  }

  ghost predicate DistinctBy(key: Record -> string, bots: seq<Record>) {
    forall i, j :: 0 <= i < j < |bots| ==> key(bots[i]) != key(bots[j])
  }

  /** No two entries of one platform derive the same key. */
  ghost predicate DistinctBots(d: Derive, c: Config) {
    DistinctBy(d.bot, BlockBots(c.telegram)) && DistinctBy(d.bot, BlockBots(c.slack))
    && DistinctBy(d.whatsapp, WhatsApps(c))
  }

  lemma FirstIsLast(key: Record -> string, bots: seq<Record>, wanted: string)
    requires DistinctBy(key, bots)
    ensures FindFirst(key, bots, wanted) == FindLast(key, bots, wanted)
  {
    FirstAndLastExist(key, bots, wanted);
    if FindFirst(key, bots, wanted).Some? {
      var x, y := FindFirst(key, bots, wanted).value, FindLast(key, bots, wanted).value;
      var i :| 0 <= i < |bots| && bots[i] == x;
      var j :| 0 <= j < |bots| && bots[j] == y;
    }
  }

  /** The slice carries the enumerated fingerprint exactly when the first and the
      last entry of that key agree; always when keys are distinct. */
  lemma SliceAgrees(d: Derive, c: Config, id: string)
    requires id in Bots(d, c)
    ensures SliceForBot(d, c, id).Some?
    ensures Bots(d, SliceForBot(d, c, id).value) == map[id := Bots(d, c)[id]]
      <==> SlicedFingerprint(d, c, id) == Bots(d, c)[id]
    ensures DistinctBots(d, c) ==> SlicedFingerprint(d, c, id) == Bots(d, c)[id]
  {
    SliceIsOneBot(d, c, id);
    BotLookup(d, c, id);
    var (platform, key) := SplitIdentity(id).value;
    var sliced := map[id := SlicedFingerprint(d, c, id)];
    assert sliced[id] == SlicedFingerprint(d, c, id);
    assert map[id := Bots(d, c)[id]][id] == Bots(d, c)[id];
    if Listed(platform) && DistinctBots(d, c) {
      ListedBot(d, c, id);
      FirstIsLast(KeyOf(d, platform), EntriesOf(c, platform), key);
    }
  }

  /** Two entries under one explicit id, which decides the key whatever the token is. */
  const FIRST: Record := Obj([Field([105, 100], Str([97])), Field(TOKEN, Str([120]))])

  const SECOND: Record := Obj([Field([105, 100], Str([97])), Field(TOKEN, Str([121]))])

  const TOKEN: Text := [116, 111, 107, 101, 110]

  /** A file that lists both as Telegram bots. */
  function Doubled(): Config {
    Config(Some(Block([FIRST, SECOND], Null)), None, None, None, None, None, None, None,
           Undefined, Undefined, Undefined, None, Null)
  }

  lemma TokensTellApart(token: Text)
    ensures var fields := [Field([105, 100], Str([97])), Field(TOKEN, Str(token))];
      WellFormed(Obj(fields)) && TOKEN in DenoteFields(fields) && DenoteFields(fields)[TOKEN] == MStr(token)
  {
    var fields := [Field([105, 100], Str([97])), Field(TOKEN, Str(token))];
    assert |TOKEN| == 5 && |fields[0].key| == 2;
    assert fields[1] in fields;
    FieldLookup(fields, TOKEN);
  }

  lemma FirstIsNotSecond()
    ensures Fingerprint(FIRST) != Fingerprint(SECOND)
  {
    TokensTellApart([120]);
    TokensTellApart([121]);
    assert [120] != [121];
    FingerprintCanonical(FIRST, SECOND);
  }

  /** The slice is the first and the enumeration the second. */
  lemma DuplicateKeysDisagree(d: Derive)
    requires d.bot(FIRST) == d.bot(SECOND)
    ensures var id := Identity("telegram", d.bot(FIRST));
      && id in Bots(d, Doubled())
      && Bots(d, Doubled())[id] == Fingerprint(SECOND)
      && SlicedFingerprint(d, Doubled(), id) == Fingerprint(FIRST) != Fingerprint(SECOND)
  {
    var key := d.bot(FIRST);
    var bots := [FIRST, SECOND];
    SplitsBack("telegram", key);
    assert EntriesOf(Doubled(), "telegram") == bots && FindLast(d.bot, bots, key) == Some(SECOND);
    ListedBot(d, Doubled(), Identity("telegram", key));
    assert FindFirst(d.bot, bots, key) == Some(FIRST);
    FirstIsNotSecond();
  }

  /** What a slice keeps of the file: everything that names no unit, and the named
      unit's own block with its other settings. */
  lemma SliceKeepsRest(d: Derive, c: Config, id: string)
    requires SliceForBot(d, c, id).Some?
    ensures var (s, platform) := (SliceForBot(d, c, id).value, SplitIdentity(id).value.0);
      && s.rest == c.rest && s.emailImapPort == c.emailImapPort && s.emailSmtpPort == c.emailSmtpPort
      && s.emailTrustedAuthservId == c.emailTrustedAuthservId && s.webhooks == None
      && (if platform == "telegram" then c.telegram.Some? && s.telegram.Some?
            && s.telegram.value.rest == c.telegram.value.rest else s.telegram == None)
      && (if platform == "slack" then c.slack.Some? && s.slack.Some?
            && s.slack.value.rest == c.slack.value.rest else s.slack == None)
      && (platform != "whatsapp" ==> s.whatsapp == None)
      && s.discordToken == (if platform == "discord" then c.discordToken else None)
      && (if platform == "email" then SameEmail(s, c)
          else s.emailImapHost == s.emailUser == s.emailPassword == s.emailSmtpHost == None)
  {
  }

  /** A slice taken of a slice is that slice. */
  lemma SliceOfSlice(d: Derive, c: Config, id: string)
    requires SliceForBot(d, c, id).Some?
    ensures SliceForBot(d, SliceForBot(d, c, id).value, id) == SliceForBot(d, c, id)
  {
  }

  lemma WebhookSliceAgrees(d: Derive, c: Config, hook: string)
    ensures SliceForWebhook(c, hook).Some? <==> hook in Webhooks(c)
    ensures hook in Webhooks(c) ==>
      var s := SliceForWebhook(c, hook).value;
      Webhooks(s) == map[hook := Webhooks(c)[hook]] && Bots(d, s) == map[]
  {
  }
}
