/**
 * The tajwid chat page (app/itajwidmudah/page.tsx): a log of messages that
 * grows as the reader picks menus or types the name of a mad rule. Typed text
 * is normalised and looked up in a fixed command table; the rule id found
 * there selects an image and an audio file whose availability a HEAD request
 * decides, given here as a parameter.
 */
module TajwidChat {
  import opened Wrappers
  import opened ChatText
  import opened Text

  /**
   * The welcome line, character for character as the page's source spells it:
   * the emoji there are stored as their UTF-8 bytes read back as Windows-1252.
   */
  const Welcome := "Selamat datang di Rumus Tajwid Mudah (RTM)! \U{00F0}\U{0178}\U{017D}\U{201C}\nSilakan klik \U{00F0}\U{0178}\U{2018}\U{00EF}\U{00B8} atau masukan perintah untuk pencarian hukum tajwid\n\nContoh:\nmad thabi'i"
  const Unrecognised := "Perintah tidak dikenali. Silakan gunakan tombol menu atau ketik nama hukum tajwid yang ingin dipelajari."
  const DataMissing := "Data belum ada"
  const UnderDevelopment := "Menu ini sedang dalam pengembangan. Silakan pilih menu lain."

  datatype MediaUrls = MediaUrls(image: string, audio: string)

  /** The outcome of the two HEAD requests: a thrown error, or whether each answered ok. */
  datatype HeadCheck = RequestFailed | Checked(imageOk: bool, audioOk: bool)

  /** What `localStorage` held under the history key, once parsed. */
  datatype SavedHistory = NoEntry | ParseError | NotAnArray | SavedArray(items: seq<Message>)

  /** Where the rule images and recordings are kept. */
  const MediaBase := "https://raw.githubusercontent.com/ngaosidn/dbTajwid/main/"

  /** The image and the recording that share the file name `name`. */
  function Media(name: string): MediaUrls {
    MediaUrls(MediaBase + name + ".jpg", MediaBase + name + ".mp3")
  }

  /** `imageMap`: rule id to its explanation image and audio. */
  const ImageMap: map<string, MediaUrls> := map[
    "mad-thabii" := Media("01 - 1 - Mad Thabi'i"),
    "mad-badal" := Media("01 - 2 - Mad Badal"),
    "mad-iwadh" := Media("01 - 3 - Mad Iwadh"),
    "mad-shilah-sugro" := Media("01 - 4 - Mad Shilah Sugro"),
    "mad-tamkin" := Media("01 - 5 - Mad Tamkin"),
    "mad-jaiz-munfashil" := Media("01 - 6 - Mad Jaiz Munfashil"),
    "mad-wajib-muttasil" := Media("01 - 7 - Mad Wajib Mutthasil"),
    "mad-shilah-kubro" := Media("01 - 8 - Mad Shilah Kubro"),
    "mad-arid-lissukun" := Media("01 - 9 - Mad Aridh Lisukun"),
    "mad-lazim-kilmi-mutsaqol" := Media("01 - 10 - Mad Lazim Kilmi Mutsaqol"),
    "mad-lazim-kilmi-mukhofaf" := Media("01 - 11 - Mad Lazim Kilmi Mukhofaf"),
    "mad-lazim-harfi-mutsaqol" := Media("01 - 12 - Mad Lazim Harfi Mutsaqol"),
    "mad-lazim-harfi-mukhofaf" := Media("01 - 13 - Mad Lazim Harfi Mukhofaf"),
    "mad-thabii-harfi" := Media("01 - 14 - Mad Thabi'i Harfi"),
    "mad-farq" := Media("01 - 15 - Mad Farq")
  ]

  /** `madCommands`, in its declaration order: typed phrase to rule id. */
  const MadCommands: seq<(string, string)> := [
    ("mad thabi'i", "mad-thabii"),
    ("mad badal", "mad-badal"),
    ("mad iwadh", "mad-iwadh"),
    ("mad shilah sugro", "mad-shilah-sugro"),
    ("mad tamkin", "mad-tamkin"),
    ("mad jaiz munfashil", "mad-jaiz-munfashil"),
    ("mad wajib mutthasil", "mad-wajib-muttasil"),
    ("mad shilah kubro", "mad-shilah-kubro"),
    ("mad aridh lisukun", "mad-arid-lissukun"),
    ("mad lazim kilmi mutsaqol", "mad-lazim-kilmi-mutsaqol"),
    ("mad lazim kilmi mukhofaf", "mad-lazim-kilmi-mukhofaf"),
    ("mad lazim harfi mutsaqol", "mad-lazim-harfi-mutsaqol"),
    ("mad lazim harfi mukhofaf", "mad-lazim-harfi-mukhofaf"),
    ("mad thabi'i harfi", "mad-thabii-harfi"),
    ("mad farq", "mad-farq")
  ]

  /** The ids of the fifteen buttons under the Mad menu. */
  const SubmenuIds: seq<string> := [
    "mad-thabii", "mad-badal", "mad-iwadh", "mad-shilah-sugro", "mad-tamkin",
    "mad-jaiz-munfashil", "mad-wajib-muttasil", "mad-shilah-kubro", "mad-arid-lissukun",
    "mad-lazim-kilmi-mutsaqol", "mad-lazim-kilmi-mukhofaf", "mad-lazim-harfi-mutsaqol",
    "mad-lazim-harfi-mukhofaf", "mad-thabii-harfi", "mad-farq"
  ]

  const ChoosePrefix := "Silakan pilih jenis "

  /** The prompt a main-menu click gets: "Silakan pilih jenis <name>:". */
  function ChooseKind(name: string): string { ChoosePrefix + name + ":" }

  /** The eight main-menu ids and the kind of rule each prompt asks about. */
  const MenuKinds: map<string, string> := map[
    "mad" := "Mad",
    "nun-sukun-tanwin" := "Nun Sukun dan Tanwin",
    "mim-sukun" := "Mim Sukun",
    "nun-mim-tasydid" := "Nun dan Mim Tasydid",
    "qolqolah" := "Qolqolah",
    "ahkam-raa" := "Ahkam Raa",
    "ahkam-lam-jalalah" := "Ahkam Lam Jalalah",
    "ayat-gharibah" := "Ayat Gharibah"
  ]

  /** The keys of a table of pairs. */
  function Keys(table: seq<(string, string)>): set<string> { set e | e in table :: e.0 }

  function CommandKeys(): set<string> { Keys(MadCommands) }

  // ---------------------------------------------------------------- formatTime

  /** `formatTime` on a whole number of seconds: minutes, a colon, seconds, each field padded to two digits. */
  function FormatTime(seconds: nat): string {
    Clock(seconds / 60, seconds % 60)
  }

  function Clock(minutes: nat, rest: nat): string {
    PadStart(Digits(minutes), 2) + ":" + PadStart(Digits(rest), 2)
  }

  /**
   * `r` is a clock text for `minutes` and `rest`: it ends in ":SS" with two
   * digits reading back as `rest`; before the colon are at least two digits
   * reading back as `minutes`, exactly two below 100 minutes.
   */
  predicate ClockText(r: string, minutes: nat, rest: nat) {
    && |r| >= 5 && r[|r| - 3] == ':'
    && AllDigits(r[|r| - 2..]) && Value(r[|r| - 2..]) == rest
    && |r[..|r| - 3]| >= 2 && AllDigits(r[..|r| - 3]) && Value(r[..|r| - 3]) == minutes
    && (|r| == 5 <==> minutes < 100)
  }

  /** Every clock text has that shape. */
  lemma ClockSpec(minutes: nat, rest: nat)
    requires rest < 60
    ensures ClockText(Clock(minutes, rest), minutes, rest)
  {
    PaddedFields(minutes, rest);
    ClockFields(PadStart(Digits(minutes), 2), PadStart(Digits(rest), 2), minutes, rest);
  }

  /** Two digit fields joined by a colon split back apart around the third character from the end. */
  lemma ClockFields(mm: string, ss: string, minutes: nat, rest: nat)
    requires |ss| == 2 && AllDigits(ss) && Value(ss) == rest
    requires |mm| >= 2 && AllDigits(mm) && Value(mm) == minutes && (|mm| == 2 <==> minutes < 100)
    ensures ClockText(mm + ":" + ss, minutes, rest)
  {
    var r := mm + ":" + ss;
    assert r[|r| - 2..] == ss;
    assert r[..|r| - 3] == mm;
  }

  /** The two padded fields: seconds in exactly two digits, minutes in two or more. */
  lemma PaddedFields(minutes: nat, rest: nat)
    requires rest < 60
    ensures var ss := PadStart(Digits(rest), 2);
      |ss| == 2 && AllDigits(ss) && Value(ss) == rest
    ensures var mm := PadStart(Digits(minutes), 2);
      |mm| >= 2 && AllDigits(mm) && Value(mm) == minutes && (|mm| == 2 <==> minutes < 100)
  {
    assert Pow10(2) == 100;
    FixedWidth(rest, 2);
    PaddedValue(minutes, 2);
    DigitsLength(minutes, 2);
  }

  /**
   * `formatTime(s)`: the seconds field is two digits reading back as `s % 60`,
   * the minutes field at least two digits reading back as `s / 60`, and the
   * whole text is five characters exactly when `s` is below 6000.
   */
  lemma FormatTimeSpec(seconds: nat)
    ensures var r := FormatTime(seconds);
      && |r| >= 5 && r[|r| - 3] == ':'
      && AllDigits(r[|r| - 2..]) && Value(r[|r| - 2..]) == seconds % 60 < 60
      && AllDigits(r[..|r| - 3]) && Value(r[..|r| - 3]) == seconds / 60
      && (|r| == 5 <==> seconds < 6000)
  {
    ClockSpec(seconds / 60, seconds % 60);
    MinutesBelowHundred(seconds);
  }

  lemma MinutesBelowHundred(seconds: nat)
    ensures seconds / 60 < 100 <==> seconds < 6000
  {
  }

  // ---------------------------------------------------------------- lookups

  /** No entry before position `i` has a lowered key equal to the message. */
  predicate FirstMatch(table: seq<(string, string)>, userMessage: string, i: int) {
    forall j :: 0 <= j < i && j < |table| ==> ToLower(table[j].0) != userMessage
  }

  /**
   * `Object.entries(table).find(([key]) => userMessage === key.toLowerCase())`:
   * the first entry whose lowered key equals the message, if any.
   */
  function FindEntry(table: seq<(string, string)>, userMessage: string): (r: Option<(string, string)>)
    ensures r.Some? ==> r.value in table && ToLower(r.value.0) == userMessage
    ensures r.None? <==> forall i :: 0 <= i < |table| ==> ToLower(table[i].0) != userMessage
    ensures r.Some? ==> exists i :: 0 <= i < |table| && table[i] == r.value && FirstMatch(table, userMessage, i)
  {
    if table == [] then None
    else if ToLower(table[0].0) == userMessage then Some(table[0])
    else FindEntry(table[1..], userMessage)
  }

  /** The rule id `handleSend` passes on for a normalised message, if the message is a command. */
  function MatchMadCommand(userMessage: string): Option<string> {
    match FindEntry(MadCommands, userMessage)
    case Some(e) => Some(e.1)
    case None => None
  }

  /** The bot's reply to a main-menu click. */
  function MenuPrompt(menuId: string): string {
    if menuId in MenuKinds then ChooseKind(MenuKinds[menuId]) else UnderDevelopment
  }

  /** Every `-` becomes a space. */
  function DashesToSpaces(s: string): string {
    seq(|s|, i requires 0 <= i < |s| => if s[i] == '-' then ' ' else s[i])
  }

  /** The first occurrence of "mad", in any letter case, becomes "Mad": `replace(/mad/i, 'Mad')`. */
  function CapitaliseFirstMad(s: string): string {
    if |s| < 3 then s
    else if ToLower(s[..3]) == "mad" then "Mad" + s[3..]
    else [s[0]] + CapitaliseFirstMad(s[1..])
  }

  /** The rule name shown in a reply: dashes to spaces, first "mad" capitalised. */
  function Label(command: string): string { CapitaliseFirstMad(DashesToSpaces(command)) }

  /** The user line `handleCommand` adds: "1" stands for Mad Thabi'i. */
  function Echo(command: string): string { if command == "1" then "Mad Thabi'i" else command }

  /** The bot line `handleCommand` adds once the HEAD requests have answered. */
  function BotReply(command: string, check: HeadCheck): Message {
    if command in ImageMap && check.Checked? && check.imageOk then
      Message(Bot, "Berikut adalah penjelasan " + Label(command) + ":",
              Some(ImageMap[command].image),
              if check.audioOk then Some(ImageMap[command].audio) else None)
    else BotText(DataMissing)
  }

  /** The two messages `handleCommand` appends. */
  function CommandMessages(command: string, check: HeadCheck): seq<Message> {
    [UserText(Echo(command)), BotReply(command, check)]
  }

  /** The messages `handleSend` appends for an accepted, normalised input. */
  function SendMessages(userMessage: string, check: HeadCheck): seq<Message> {
    [UserText(userMessage)] + Reply(MatchMadCommand(userMessage), check)
  }

  /** What follows the typed line: the command's messages, or the "not recognised" reply. */
  function Reply(matched: Option<string>, check: HeadCheck): seq<Message> {
    match matched
    case Some(id) => CommandMessages(id, check)
    case None => [BotText(Unrecognised)]
  }

  // ---------------------------------------------------------------- properties

  /** ASCII text without capitals is its own lower case. */
  lemma LowerCaseFixed(s: string)
    requires forall c :: c in s ==> c as int < 128 && !('A' <= c <= 'Z')
    ensures ToLower(s) == s
  {
    forall i | 0 <= i < |s| ensures ToLower(s)[i] == s[i] {
      assert s[i] in s;
    }
  }

  /** The command table's keys are already lower case, so matching compares against them as written. */
  lemma CommandKeysLowerCase()
    ensures forall i :: 0 <= i < |MadCommands| ==> ToLower(MadCommands[i].0) == MadCommands[i].0
  {
    forall i | 0 <= i < |MadCommands| ensures ToLower(MadCommands[i].0) == MadCommands[i].0 {
      LowerCaseFixed(MadCommands[i].0);
    }
  }

  /** In a table whose keys are lower case, `FindEntry` finds the first entry whose key is the message itself. */
  lemma FindEntryLowerKeys(table: seq<(string, string)>, userMessage: string)
    requires forall i :: 0 <= i < |table| ==> ToLower(table[i].0) == table[i].0
    ensures FindEntry(table, userMessage).Some? <==> exists i :: 0 <= i < |table| && table[i].0 == userMessage
    ensures FindEntry(table, userMessage).Some? <==> userMessage in Keys(table)
    ensures FindEntry(table, userMessage).Some? ==>
      FindEntry(table, userMessage).value in table && FindEntry(table, userMessage).value.0 == userMessage
    ensures forall i :: 0 <= i < |table| && table[i].0 == userMessage && FirstMatch(table, userMessage, i) ==>
      FindEntry(table, userMessage) == Some(table[i])
  {
    var r := FindEntry(table, userMessage);
    if r.Some? {
      var k :| 0 <= k < |table| && table[k] == r.value && FirstMatch(table, userMessage, k);
      forall i | 0 <= i < |table| && table[i].0 == userMessage && FirstMatch(table, userMessage, i)
        ensures r == Some(table[i])
      {
        assert ToLower(table[i].0) == userMessage;
        assert !(i < k) && !(k < i);
      }
    }
    if userMessage in Keys(table) {
      var e :| e in table && e.0 == userMessage;
      var j :| 0 <= j < |table| && table[j] == e;
    }
  }

  /**
   * A normalised message is recognised exactly when it is one of the fifteen
   * keys, and it maps to the id written beside the first entry with that key.
   */
  lemma MatchMadCommandSpec(userMessage: string)
    ensures MatchMadCommand(userMessage).Some? <==> userMessage in CommandKeys()
    ensures MatchMadCommand(userMessage).Some? ==> (userMessage, MatchMadCommand(userMessage).value) in MadCommands
    ensures forall i :: 0 <= i < |MadCommands| && MadCommands[i].0 == userMessage && FirstMatch(MadCommands, userMessage, i) ==>
      MatchMadCommand(userMessage) == Some(MadCommands[i].1)
  {
    CommandKeysLowerCase();
    FindEntryLowerKeys(MadCommands, userMessage);
  }

  /**
   * The command table, the Mad submenu and `imageMap` name the same fifteen
   * ids: every id typed text or a submenu button can produce is a key of
   * `imageMap`, and every key of `imageMap` is reachable.
   */
  lemma CommandTablesAgree()
    ensures forall i :: 0 <= i < |MadCommands| ==> MadCommands[i].1 in ImageMap
    ensures |SubmenuIds| == |MadCommands| && forall i :: 0 <= i < |SubmenuIds| ==> SubmenuIds[i] == MadCommands[i].1
    ensures forall i :: 0 <= i < |SubmenuIds| ==> SubmenuIds[i] in ImageMap
    ensures forall k :: k in ImageMap ==> k in SubmenuIds
  {
  }

  /**
   * A recognised command never reaches the unknown-key branch: when the image
   * check succeeds its reply carries the table's image.
   */
  lemma RecognisedCommandsHaveMedia(userMessage: string, check: HeadCheck)
    requires MatchMadCommand(userMessage).Some?
    ensures MatchMadCommand(userMessage).value in ImageMap
    ensures check.Checked? && check.imageOk ==>
      BotReply(MatchMadCommand(userMessage).value, check).imageUrl ==
        Some(ImageMap[MatchMadCommand(userMessage).value].image)
  {
    MatchMadCommandSpec(userMessage);
    CommandTablesAgree();
  }

  /**
   * The reply carries an image exactly when the id is known and the image
   * answered ok, audio only together with an image and only when the audio
   * answered ok; every other case is the "Data belum ada" text. The URLs are
   * the id's own entry in the image map, and the text names the id's label.
   */
  lemma BotReplySpec(command: string, check: HeadCheck)
    ensures BotReply(command, check).sender == Bot
    ensures BotReply(command, check).imageUrl.Some? <==> command in ImageMap && check.Checked? && check.imageOk
    ensures BotReply(command, check).audioUrl.Some? <==> BotReply(command, check).imageUrl.Some? && check.audioOk
    ensures BotReply(command, check).imageUrl.None? ==> BotReply(command, check) == BotText(DataMissing)
    ensures BotReply(command, check).imageUrl.Some? ==>
      && BotReply(command, check).imageUrl == Some(ImageMap[command].image)
      && BotReply(command, check).content == "Berikut adalah penjelasan " + Label(command) + ":"
    ensures BotReply(command, check).audioUrl.Some? ==> BotReply(command, check).audioUrl == Some(ImageMap[command].audio)
  {
  }

  /**
   * Sending appends the typed text, then either the command's two messages
   * (three in all: the rule id echoed as it is, then its reply) or the
   * "not recognised" reply (two in all).
   */
  lemma SendMessagesSpec(userMessage: string, check: HeadCheck)
    ensures SendMessages(userMessage, check)[0] == UserText(userMessage)
    ensures |SendMessages(userMessage, check)| == 3 <==> userMessage in CommandKeys()
    ensures |SendMessages(userMessage, check)| == 2 <==> userMessage !in CommandKeys()
    ensures userMessage !in CommandKeys() ==> SendMessages(userMessage, check)[1] == BotText(Unrecognised)
    ensures userMessage in CommandKeys() ==>
      && SendMessages(userMessage, check)[1] == UserText(MatchMadCommand(userMessage).value)
      && SendMessages(userMessage, check)[2] == BotReply(MatchMadCommand(userMessage).value, check)
  {
    MatchMadCommandSpec(userMessage);
    if userMessage in CommandKeys() {
      RuleIdNotOne((userMessage, MatchMadCommand(userMessage).value));
    }
  }

  /** No rule id is "1", so `Echo` repeats a typed command's id as it is. */
  lemma RuleIdNotOne(e: (string, string))
    requires e in MadCommands
    ensures Echo(e.1) == e.1
  {
    assert forall i :: 0 <= i < |MadCommands| ==> MadCommands[i].1[..3] == "mad";
  }

  /** The eight menus answer "Silakan pilih jenis …"; any other id gets the "in development" reply. */
  lemma MenuPromptSpec(menuId: string)
    ensures MenuPrompt(menuId) == UnderDevelopment <==> menuId !in MenuKinds
    ensures menuId in MenuKinds ==> MenuPrompt(menuId)[..|ChoosePrefix|] == ChoosePrefix
  {
    if menuId in MenuKinds {
      var prompt := ChooseKind(MenuKinds[menuId]);
      assert prompt[..|ChoosePrefix|] == ChoosePrefix;
      // A prompt ends with ':', the in-development reply with '.'.
      assert prompt[|prompt| - 1] == ':';
      assert UnderDevelopment[|UnderDevelopment| - 1] == '.';
    }
  }

  /** A reply label keeps the id's length, has no dashes, and begins with "Mad" for every table id. */
  lemma {:induction false} CapitaliseFirstMadSpec(s: string)
    ensures |CapitaliseFirstMad(s)| == |s|
    ensures forall i :: 0 <= i < |s| && s[i] != '-' ==> CapitaliseFirstMad(s)[i] != '-'
  {
    if |s| >= 3 && ToLower(s[..3]) != "mad" {
      CapitaliseFirstMadSpec(s[1..]);
    }
  }

  lemma LabelSpec(command: string)
    ensures |Label(command)| == |command|
    ensures forall i :: 0 <= i < |command| ==> Label(command)[i] != '-'
    ensures |command| >= 3 && command[..3] == "mad" ==> Label(command) == "Mad" + DashesToSpaces(command)[3..]
  {
    CapitaliseFirstMadSpec(DashesToSpaces(command));
    if |command| >= 3 && command[..3] == "mad" {
      assert DashesToSpaces(command)[..3] == "mad";
    }
  }

  // ---------------------------------------------------------------- page state

  /** The page's state: the log, the two loading flags, the menu and the input box. */
  class Chat {
    var messages: seq<Message>
    var historyLoading: bool
    var loading: bool
    var showMenu: bool
    var selectedMenu: Option<string>
    var input: string

    /** Once the saved history has been read, the log is never empty. */
    ghost predicate Valid()
      reads this
    {
      historyLoading || messages != []
    }

    constructor ()
      ensures Valid() && messages == [] && historyLoading && !loading
      ensures !showMenu && selectedMenu == None && input == ""
    {
      messages, historyLoading, loading := [], true, false;
      showMenu, selectedMenu, input := false, None, "";
    }

    /** On mount: keep a saved log only if it parsed to a non-empty array, otherwise start from the welcome message. */
    method LoadHistory(saved: SavedHistory)
      modifies this`messages, this`historyLoading
      ensures Valid() && !historyLoading
      ensures saved.SavedArray? && saved.items != [] ==> messages == saved.items
      ensures !(saved.SavedArray? && saved.items != []) ==> messages == [BotText(Welcome)]
    {
      if saved.SavedArray? && |saved.items| > 0 {
        messages := saved.items;
        historyLoading := false;
        return;
      }
      messages := [BotText(Welcome)];
      historyLoading := false;
    }

    /** The text box's change handler. */
    method SetInput(text: string)
      requires Valid()
      modifies this`input
      ensures Valid() && input == text
    {
      input := text;
    }

    method ToggleMenu()
      requires Valid()
      modifies this`showMenu
      ensures Valid() && showMenu == !old(showMenu)
    {
      showMenu := !showMenu;
    }

    /** `handleMenuClick`: select the menu, hide the panel, append the click and one prompt. */
    method MenuClick(menuId: string)
      requires Valid()
      modifies this`selectedMenu, this`showMenu, this`messages
      ensures Valid() && selectedMenu == Some(menuId) && !showMenu
      ensures messages == old(messages) + [UserText(menuId), BotText(MenuPrompt(menuId))]
    {
      selectedMenu := Some(menuId);
      showMenu := false;
      messages := messages + [UserText(menuId)];
      if menuId in MenuKinds {
        messages := messages + [BotText(ChooseKind(MenuKinds[menuId]))];
      } else {
        messages := messages + [BotText(UnderDevelopment)];
      }
    }

    /** "Kembali ke Menu Utama". */
    method BackToMainMenu()
      requires Valid()
      modifies this`selectedMenu
      ensures Valid() && selectedMenu == None
    {
      selectedMenu := None;
    }

    /** `handleCommand`: append the command line and the reply the HEAD checks allow. */
    method Command(command: string, check: HeadCheck)
      requires Valid()
      modifies this`messages, this`loading
      ensures Valid() && !loading
      ensures messages == old(messages) + CommandMessages(command, check)
    {
      loading := true;
      messages := messages + [UserText(if command == "1" then "Mad Thabi'i" else command)];
      if command in ImageMap {
        var urls := ImageMap[command];
        match check {
          case RequestFailed =>
            messages := messages + [BotText(DataMissing)];
          case Checked(imageOk, audioOk) =>
            if imageOk {
              var reply := Message(Bot, "Berikut adalah penjelasan " + Label(command) + ":",
                                   Some(urls.image), if audioOk then Some(urls.audio) else None);
              messages := messages + [reply];
            } else {
              messages := messages + [BotText(DataMissing)];
            }
        }
      } else {
        messages := messages + [BotText(DataMissing)];
      }
      loading := false;
    }

    /**
     * `handleSend`: blank input, or input while a command is loading, changes
     * nothing; otherwise the normalised text is answered.
     */
    method Send(check: HeadCheck)
      requires Valid()
      modifies this`messages, this`loading, this`input
      ensures Valid()
      ensures Trim(old(input)) == [] || old(loading) ==>
        messages == old(messages) && input == old(input) && loading == old(loading)
      ensures Trim(old(input)) != [] && !old(loading) ==>
        && messages == old(messages) + SendMessages(Normalise(old(input)), check)
        && input == "" && !loading
    {
      if Trim(input) == [] || loading {
        return;
      }
      var userMessage := Normalise(input);
      ghost var sent := SendMessages(userMessage, check);
      input := "";
      ghost var before := messages;
      Answer(userMessage, check);
      assert messages == before + sent;
    }

    /**
     * The rest of `handleSend`: append the typed line, then dispatch it through
     * the command table or answer it as not recognised.
     */
    method Answer(userMessage: string, check: HeadCheck)
      requires Valid()
      modifies this`messages, this`loading
      ensures Valid() && !loading
      ensures messages == old(messages) + SendMessages(userMessage, check)
    {
      loading := true;
      messages := messages + [UserText(userMessage)];
      var matched := MatchMadCommand(userMessage);
      ghost var typed := messages;
      if matched.Some? {
        Command(matched.value, check);
      } else {
        messages := messages + [BotText(Unrecognised)];
      }
      assert messages == typed + Reply(matched, check);
      assert old(messages) + [UserText(userMessage)] + Reply(matched, check)
          == old(messages) + ([UserText(userMessage)] + Reply(matched, check));
      loading := false;
    }

    /** The trash button: back to the single welcome message, no menu selected. */
    method ClearHistory()
      requires Valid()
      modifies this`messages, this`selectedMenu
      ensures Valid() && messages == [BotText(Welcome)] && selectedMenu == None
    {
      messages := [BotText(Welcome)];
      selectedMenu := None;
    }
  }
}
