/** The trade-capture conversation (bot/handlers.py, phases from
    bot/states.py). One Session object holds one user's FSM state: the phase,
    the two data keys the handlers use, and the replies sent so far. Telegram
    file downloads and the collage builder are parameters that may fail. */
module Handlers {
  import opened Wrappers
  import opened Text
  import ImageProcessor

  type FileId = string
  type Bytes = ImageProcessor.Bytes

  /** No state, or one of TradeStates. */
  datatype Phase = NoState | WaitingForScreenshots | WaitingForDescription | WaitingForConfirmation

  /** One size variant of a photo; Telegram lists them smallest first. */
  datatype PhotoSize = PhotoSize(fileId: FileId, width: nat, height: nat)

  /** What the handlers and their filters look at in a message. */
  datatype Message = Message(text: Option<string>, photo: seq<PhotoSize>, voice: bool)

  const HelpButton := "❓ Помощь"
  const NewTradeButton := "➕ Новая сделка"
  const StatsButton := "📊 Статистика"
  const CancelButton := "❌ Отмена"
  const DoneButton := "✅ Готово"

  /** The replies the bot sends, by meaning. */
  datatype Reply =
    | Welcome
    | MainMenu
    | HelpText
    | StatsText
    | NewTradePrompt
    | NothingToCancel
    | Cancelled
    | ScreenshotReceived(count: nat)
    | NoScreenshots
    | Processing
    | CollageReady(collage: Bytes, count: nat)
    | ProcessingRemoved
    | ProcessingFailed
    | DescribePrompt
    | VoiceNotice
    | DescriptionNotice(text: Option<string>)

  /** A command filter: the first whitespace-separated word of the text is
      "/name" alone or "/name@" followed by a mention. Leading whitespace is
      skipped and any whitespace may separate the arguments. */
  predicate IsCommand(text: string, name: string) {
    var word := FirstWord(LStrip(text));
    word == "/" + name || StartsWith(word, "/" + name + "@")
  }

  predicate TextIs(msg: Message, t: string) {
    msg.text == Some(t)
  }

  predicate CommandOrButton(msg: Message, name: string, button: string) {
    msg.text.Some? && (IsCommand(msg.text.value, name) || msg.text.value == button)
  }

  datatype HandlerKind =
    | Start | HelpHandler | NewTrade | StatsHandler | CancelHandler
    | Screenshot | FinishScreenshots | Description | Unhandled

  /** The router: handlers are tried in the order they are registered and the
      first whose filters match takes the message. */
  function Route(phase: Phase, msg: Message): (r: HandlerKind)
    ensures r == Screenshot ==> phase == WaitingForScreenshots && |msg.photo| > 0
    ensures r == FinishScreenshots ==> phase == WaitingForScreenshots && TextIs(msg, DoneButton)
    ensures r == Description ==> phase == WaitingForDescription
    ensures r == Unhandled ==> phase != WaitingForDescription
    ensures msg.text.None? ==> r in {Screenshot, Description, Unhandled}
  {
    if msg.text.Some? && IsCommand(msg.text.value, "start") then Start
    else if CommandOrButton(msg, "help", HelpButton) then HelpHandler
    else if CommandOrButton(msg, "new", NewTradeButton) then NewTrade
    else if CommandOrButton(msg, "stats", StatsButton) then StatsHandler
    else if CommandOrButton(msg, "cancel", CancelButton) then CancelHandler
    else if phase == WaitingForScreenshots && |msg.photo| > 0 then Screenshot
    else if phase == WaitingForScreenshots && TextIs(msg, DoneButton) then FinishScreenshots
    else if phase == WaitingForDescription then Description
    else Unhandled
  }

  /** The cancel button reaches the cancel handler in every phase. */
  lemma CancelAlwaysRouted(phase: Phase, msg: Message)
    requires TextIs(msg, CancelButton)
    ensures Route(phase, msg) == CancelHandler
  {
    assert CancelButton[0] == '\U{274c}';
    forall name: string ensures !IsCommand(CancelButton, name) {
      NotSlashNotCommand(CancelButton, name);
    }
  }

  /** Menu button texts start with neither '/' nor whitespace, so no command
      filter takes them. */
  lemma NotSlashNotCommand(t: string, name: string)
    requires |t| > 0 && t[0] != '/' && !IsSpace(t[0])
    ensures !IsCommand(t, name)
  {
    var word := FirstWord(t);
    assert LStrip(t) == t;
    assert word[0] == t[0];
    assert ("/" + name)[0] == '/' && ("/" + name + "@")[0] == '/';
  }

  /** A command is recognised after leading whitespace, alone or followed by
      any whitespace character and arguments. */
  lemma CommandWithArguments(p: string, name: string, c: char, args: string)
    requires AllSpace(p) && IsSpace(c)
    requires forall i :: 0 <= i < |name| ==> !IsSpace(name[i])
    ensures IsCommand(p + "/" + name, name)
    ensures IsCommand(p + "/" + name + [c] + args, name)
  {
    var cmd := "/" + name;
    assert forall i :: 0 <= i < |cmd| ==> !IsSpace(cmd[i]) by {
      forall i | 0 <= i < |cmd| ensures !IsSpace(cmd[i]) {
        if i > 0 {
          assert cmd[i] == name[i - 1];
        }
      }
    }
    assert p + "/" + name == p + cmd;
    assert p + "/" + name + [c] + args == p + (cmd + [c] + args);
    LStripSkipsSpace(p, cmd);
    LStripSkipsSpace(p, cmd + [c] + args);
    assert LStrip(cmd) == cmd;
    assert LStrip(cmd + [c] + args) == cmd + [c] + args;
    FirstWordWhole(cmd);
    FirstWordBeforeSpace(cmd, c, args);
  }

  /** While waiting for a description, every message that is not a command or
      a menu button goes to the description handler, whatever it carries. */
  lemma DescriptionTakesEverythingElse(msg: Message)
    requires msg.text.None?
    ensures Route(WaitingForDescription, msg) == Description
    ensures Route(NoState, msg) == Unhandled
  {
  }

  /** Downloading the screenshots in list order: the bytes of every id, or
      None as soon as one download fails. */
  function Fetched(ids: seq<FileId>, download: FileId -> Option<Bytes>): (r: Option<seq<Bytes>>)
    ensures r.Some? ==> |r.value| == |ids|
    ensures |ids| > 0 && r.Some? ==> download(ids[|ids| - 1]) == Some(r.value[|ids| - 1])
  {
    if |ids| == 0 then Some([])
    else match Fetched(ids[..|ids| - 1], download)
      case None => None
      case Some(bs) =>
        match download(ids[|ids| - 1])
        case None => None
        case Some(b) => Some(bs + [b])
  }

  /** The downloads succeed exactly when each one does, and then the k-th
      buffer is the bytes of the k-th id. */
  lemma {:induction false} FetchedInOrder(ids: seq<FileId>, download: FileId -> Option<Bytes>)
    ensures Fetched(ids, download).Some? <==> forall k :: 0 <= k < |ids| ==> download(ids[k]).Some?
    ensures Fetched(ids, download).Some? ==>
      var bs := Fetched(ids, download).value;
      |bs| == |ids| && forall k :: 0 <= k < |ids| ==> download(ids[k]) == Some(bs[k])
  {
    if |ids| > 0 {
      var init := ids[..|ids| - 1];
      FetchedInOrder(init, download);
      assert forall k :: 0 <= k < |init| ==> init[k] == ids[k];
    }
  }

  lemma FetchedStep(ids: seq<FileId>, download: FileId -> Option<Bytes>, i: nat, bs: seq<Bytes>)
    requires i < |ids| && Fetched(ids[..i], download) == Some(bs)
    ensures Fetched(ids[..i + 1], download) ==
      if download(ids[i]).Some? then Some(bs + [download(ids[i]).value]) else None
  {
    assert ids[..i + 1][..i] == ids[..i];
  }

  lemma {:induction false} FetchedFails(ids: seq<FileId>, download: FileId -> Option<Bytes>, i: nat)
    requires i <= |ids| && Fetched(ids[..i], download).None?
    ensures Fetched(ids, download).None?
    decreases |ids| - i
  {
    if i < |ids| {
      assert ids[..i + 1][..i] == ids[..i];
      FetchedFails(ids, download, i + 1);
    } else {
      assert ids[..i] == ids;
    }
  }

  /** create_vertical_collage as the conversation sees it: None when it raises. */
  type CollageBuilder = seq<Bytes> -> Option<Bytes>

  class Session {
    var phase: Phase
    /** data["screenshots"], when set. */
    var screenshots: Option<seq<FileId>>
    /** data["collage"], when set. */
    var collage: Option<Bytes>
    /** Everything sent to the user, in order. */
    var outbox: seq<Reply>

    /** The state the handlers keep: the confirmation phase is never entered,
        a cleared session has no data, collecting has a list, and the
        description phase has a non-empty list and its collage. */
    ghost predicate Valid()
      reads this
    {
      && phase != WaitingForConfirmation
      && (phase == NoState ==> screenshots.None? && collage.None?)
      && (phase == WaitingForScreenshots ==> screenshots.Some?)
      && (phase == WaitingForDescription ==> screenshots.Some? && screenshots.value != [] && collage.Some?)
    }

    constructor ()
      ensures Valid() && phase == NoState && screenshots.None? && collage.None? && outbox == []
    {
      phase := NoState;
      screenshots := None;
      collage := None;
      outbox := [];
    }

    /** state.clear(): no state, no data. */
    method Clear()
      modifies this
      ensures phase == NoState && screenshots.None? && collage.None? && outbox == old(outbox)
    {
      phase := NoState;
      screenshots := None;
      collage := None;
    }

    /** cmd_start: always clears, then greets. */
    method CmdStart()
      modifies this
      ensures Valid()
      ensures phase == NoState && screenshots.None? && collage.None?
      ensures outbox == old(outbox) + [Welcome]
    {
      Clear();
      outbox := outbox + [Welcome];
    }

    /** cmd_help: replies only. */
    method CmdHelp()
      modifies this
      ensures phase == old(phase) && screenshots == old(screenshots) && collage == old(collage)
      ensures outbox == old(outbox) + [HelpText]
    {
      outbox := outbox + [HelpText];
    }

    /** cmd_stats: replies only. */
    method CmdStats()
      modifies this
      ensures phase == old(phase) && screenshots == old(screenshots) && collage == old(collage)
      ensures outbox == old(outbox) + [StatsText]
    {
      outbox := outbox + [StatsText];
    }

    /** cmd_new_trade: from any phase, collect screenshots into an empty
        list. update_data merges, so a collage already stored stays. */
    method CmdNewTrade()
      requires Valid()
      modifies this
      ensures Valid()
      ensures phase == WaitingForScreenshots && screenshots == Some([])
      ensures collage == old(collage)
      ensures outbox == old(outbox) + [NewTradePrompt]
    {
      phase := WaitingForScreenshots;
      screenshots := Some([]);
      outbox := outbox + [NewTradePrompt];
    }

    /** cmd_cancel: with no phase nothing changes ("nothing to cancel");
        otherwise the whole session is cleared. */
    method CmdCancel()
      requires Valid()
      modifies this
      ensures Valid()
      ensures old(phase) == NoState ==>
        && phase == NoState && screenshots == old(screenshots) && collage == old(collage)
        && outbox == old(outbox) + [NothingToCancel, MainMenu]
      ensures old(phase) != NoState ==>
        && phase == NoState && screenshots.None? && collage.None?
        && outbox == old(outbox) + [Cancelled, MainMenu]
    {
      if phase == NoState {
        outbox := outbox + [NothingToCancel, MainMenu];
        return;
      }
      Clear();
      outbox := outbox + [Cancelled, MainMenu];
    }

    /** handle_screenshot: append the id of the largest size (the last one)
        and acknowledge with the new count. */
    method HandleScreenshot(photo: seq<PhotoSize>)
      requires Valid() && phase == WaitingForScreenshots && |photo| > 0
      modifies this
      ensures Valid()
      ensures phase == old(phase) && collage == old(collage)
      ensures screenshots == Some(old(screenshots).value + [photo[|photo| - 1].fileId])
      ensures outbox == old(outbox) + [ScreenshotReceived(|screenshots.value|)]
    {
      var list := screenshots.GetOr([]);
      list := list + [photo[|photo| - 1].fileId];
      screenshots := Some(list);
      outbox := outbox + [ScreenshotReceived(|list|)];
    }

    /** finish_screenshots: with no screenshots only a warning; otherwise
        download them in order and build the collage. Success stores the
        collage, sends it and moves on to the description; any failure
        clears the session. */
    method FinishScreenshots(download: FileId -> Option<Bytes>, build: CollageBuilder)
      requires Valid() && phase == WaitingForScreenshots
      modifies this
      ensures Valid()
      ensures old(screenshots).GetOr([]) == [] ==>
        && phase == old(phase) && screenshots == old(screenshots) && collage == old(collage)
        && outbox == old(outbox) + [NoScreenshots]
      ensures old(screenshots).GetOr([]) != [] ==>
        var ids := old(screenshots).GetOr([]);
        var fetched := Fetched(ids, download);
        if fetched.Some? && build(fetched.value).Some? then
          && phase == WaitingForDescription
          && screenshots == old(screenshots)
          && collage == build(fetched.value)
          && outbox == old(outbox) + [Processing, CollageReady(collage.value, |ids|), ProcessingRemoved, DescribePrompt]
        else
          && phase == NoState && screenshots.None? && collage.None?
          && outbox == old(outbox) + [Processing, ProcessingFailed, MainMenu]
    {
      var ids := screenshots.GetOr([]);
      if ids == [] {
        outbox := outbox + [NoScreenshots];
        return;
      }
      outbox := outbox + [Processing];
      var imagesBytes: seq<Bytes> := [];
      var i := 0;
      while i < |ids|
        invariant 0 <= i <= |ids|
        invariant Fetched(ids[..i], download) == Some(imagesBytes)
        invariant phase == old(phase) && screenshots == old(screenshots) && collage == old(collage)
        invariant outbox == old(outbox) + [Processing]
      {
        var fileData := download(ids[i]);
        FetchedStep(ids, download, i, imagesBytes);
        if fileData.None? {
          FetchedFails(ids, download, i + 1);
          Fail();
          return;
        }
        imagesBytes := imagesBytes + [fileData.value];
        i := i + 1;
      }
      assert ids[..i] == ids;
      var collageBytes := build(imagesBytes);
      if collageBytes.None? {
        Fail();
        return;
      }
      collage := collageBytes;
      outbox := outbox + [CollageReady(collageBytes.value, |ids|), ProcessingRemoved];
      phase := WaitingForDescription;
      outbox := outbox + [DescribePrompt];
    }

    /** The except branch of finish_screenshots. */
    method Fail()
      modifies this
      ensures Valid()
      ensures phase == NoState && screenshots.None? && collage.None?
      ensures outbox == old(outbox) + [ProcessingFailed, MainMenu]
    {
      outbox := outbox + [ProcessingFailed];
      Clear();
      outbox := outbox + [MainMenu];
    }

    /** handle_description (a stub): acknowledge the voice or text message,
        then clear the session. */
    method HandleDescription(msg: Message)
      requires Valid() && phase == WaitingForDescription
      modifies this
      ensures Valid()
      ensures phase == NoState && screenshots.None? && collage.None?
      ensures outbox == old(outbox) + [if msg.voice then VoiceNotice else DescriptionNotice(msg.text), MainMenu]
    {
      if msg.voice {
        outbox := outbox + [VoiceNotice];
      } else {
        outbox := outbox + [DescriptionNotice(msg.text)];
      }
      Clear();
      outbox := outbox + [MainMenu];
    }

    /** One incoming message, routed as the router does. */
    method Dispatch(msg: Message, download: FileId -> Option<Bytes>, build: CollageBuilder)
      requires Valid()
      modifies this
      ensures Valid()
      ensures Route(old(phase), msg) in {Start, CancelHandler, Description} ==>
        phase == NoState && screenshots.None? && collage.None?
      ensures Route(old(phase), msg) in {HelpHandler, StatsHandler, Unhandled} ==>
        phase == old(phase) && screenshots == old(screenshots) && collage == old(collage)
      ensures Route(old(phase), msg) == Start ==> outbox == old(outbox) + [Welcome]
      ensures Route(old(phase), msg) == HelpHandler ==> outbox == old(outbox) + [HelpText]
      ensures Route(old(phase), msg) == StatsHandler ==> outbox == old(outbox) + [StatsText]
      ensures Route(old(phase), msg) == Unhandled ==> outbox == old(outbox)
      ensures Route(old(phase), msg) == NewTrade ==>
        && phase == WaitingForScreenshots && screenshots == Some([]) && collage == old(collage)
        && outbox == old(outbox) + [NewTradePrompt]
      ensures Route(old(phase), msg) == CancelHandler ==>
        outbox == old(outbox) + [if old(phase) == NoState then NothingToCancel else Cancelled, MainMenu]
      ensures Route(old(phase), msg) == Screenshot ==>
        && phase == old(phase) && collage == old(collage)
        && screenshots == Some(old(screenshots).value + [msg.photo[|msg.photo| - 1].fileId])
        && outbox == old(outbox) + [ScreenshotReceived(|screenshots.value|)]
      ensures Route(old(phase), msg) == HandlerKind.FinishScreenshots && old(screenshots).GetOr([]) == [] ==>
        && phase == old(phase) && screenshots == old(screenshots) && collage == old(collage)
        && outbox == old(outbox) + [NoScreenshots]
      ensures Route(old(phase), msg) == HandlerKind.FinishScreenshots && old(screenshots).GetOr([]) != [] ==>
        var ids := old(screenshots).GetOr([]);
        var fetched := Fetched(ids, download);
        if fetched.Some? && build(fetched.value).Some? then
          && phase == WaitingForDescription
          && screenshots == old(screenshots)
          && collage == build(fetched.value)
          && outbox == old(outbox) + [Processing, CollageReady(collage.value, |ids|), ProcessingRemoved, DescribePrompt]
        else
          && phase == NoState && screenshots.None? && collage.None?
          && outbox == old(outbox) + [Processing, ProcessingFailed, MainMenu]
      ensures Route(old(phase), msg) == Description ==>
        outbox == old(outbox) + [if msg.voice then VoiceNotice else DescriptionNotice(msg.text), MainMenu]
    {
      match Route(phase, msg)
      case Start => CmdStart();
      case HelpHandler => CmdHelp();
      case NewTrade => CmdNewTrade();
      case StatsHandler => CmdStats();
      case CancelHandler => CmdCancel();
      case Screenshot => HandleScreenshot(msg.photo);
      case FinishScreenshots => FinishScreenshots(download, build);
      case Description => HandleDescription(msg);
      case Unhandled =>
    }
  }

  /** The new-trade button starts a trade in every phase. */
  lemma NewTradeRouted(phase: Phase)
    ensures Route(phase, Message(Some(NewTradeButton), [], false)) == NewTrade
  {
    NotSlashNotCommand(NewTradeButton, "start");
    NotSlashNotCommand(NewTradeButton, "help");
  }

  /** While collecting, a photo goes to the screenshot handler. */
  lemma PhotoRouted(sizes: seq<PhotoSize>)
    requires |sizes| > 0
    ensures Route(WaitingForScreenshots, Message(None, sizes, false)) == Screenshot
  {
  }

  /** While collecting, the done button finishes the collection. */
  lemma DoneRouted()
    ensures Route(WaitingForScreenshots, Message(Some(DoneButton), [], false)) == HandlerKind.FinishScreenshots
  {
    NotSlashNotCommand(DoneButton, "start");
    NotSlashNotCommand(DoneButton, "help");
    NotSlashNotCommand(DoneButton, "new");
    NotSlashNotCommand(DoneButton, "stats");
    NotSlashNotCommand(DoneButton, "cancel");
  }

  /** In the description phase a text that starts with neither '/' nor
      whitespace and is no menu button goes to the description handler. */
  lemma PlainTextIsDescription(t: string)
    requires |t| > 0 && t[0] != '/' && !IsSpace(t[0])
    requires t != HelpButton && t != NewTradeButton && t != StatsButton && t != CancelButton
    ensures Route(WaitingForDescription, Message(Some(t), [], false)) == Description
  {
    NotSlashNotCommand(t, "start");
    NotSlashNotCommand(t, "help");
    NotSlashNotCommand(t, "new");
    NotSlashNotCommand(t, "stats");
    NotSlashNotCommand(t, "cancel");
  }

  /** A whole submission, message by message through the router: the
      new-trade button, two photos, the done button with working downloads
      and builder, then a description. It ends with a cleared session after
      the collage of the two screenshots, in order, was sent. */
  method FullCapture(s: Session, first: FileId, second: FileId, description: string,
                     download: FileId -> Option<Bytes>, build: CollageBuilder)
    requires s.Valid()
    requires download(first).Some? && download(second).Some?
    requires build([download(first).value, download(second).value]).Some?
    requires Route(WaitingForDescription, Message(Some(description), [], false)) == Description
    modifies s
    ensures s.phase == NoState && s.screenshots.None? && s.collage.None?
    ensures s.outbox == old(s.outbox)
      + [NewTradePrompt] + [ScreenshotReceived(1)] + [ScreenshotReceived(2)]
      + [Processing, CollageReady(build([download(first).value, download(second).value]).value, 2),
         ProcessingRemoved, DescribePrompt]
      + [DescriptionNotice(Some(description)), MainMenu]
  {
    CollectTwo(s, first, second, download, build);
    FetchedPair(first, second, download);
    DoneRouted();
    ghost var sent := s.outbox;
    s.Dispatch(Message(Some(DoneButton), [], false), download, build);
    assert s.phase == WaitingForDescription;
    assert s.outbox == sent + [Processing,
      CollageReady(build([download(first).value, download(second).value]).value, 2),
      ProcessingRemoved, DescribePrompt];
    s.Dispatch(Message(Some(description), [], false), download, build);
  }

  /** The new-trade button and two photos through the router: the list holds
      both ids in upload order, the largest size of each photo. */
  method CollectTwo(s: Session, first: FileId, second: FileId,
                    download: FileId -> Option<Bytes>, build: CollageBuilder)
    requires s.Valid()
    modifies s
    ensures s.Valid() && s.phase == WaitingForScreenshots
    ensures s.screenshots == Some([first, second])
    ensures s.outbox == old(s.outbox) + [NewTradePrompt] + [ScreenshotReceived(1)] + [ScreenshotReceived(2)]
  {
    var one := [PhotoSize(first, 1280, 720)];
    var two := [PhotoSize("thumb", 90, 51), PhotoSize(second, 1280, 720)];
    NewTradeRouted(s.phase);
    s.Dispatch(Message(Some(NewTradeButton), [], false), download, build);
    assert s.phase == WaitingForScreenshots && s.screenshots == Some([]);
    PhotoRouted(one);
    s.Dispatch(Message(None, one, false), download, build);
    assert [] + [first] == [first] && [first] + [second] == [first, second];
    assert s.screenshots == Some([first]);
    PhotoRouted(two);
    s.Dispatch(Message(None, two, false), download, build);
  }

  lemma FetchedPair(first: FileId, second: FileId, download: FileId -> Option<Bytes>)
    requires download(first).Some? && download(second).Some?
    ensures Fetched([first, second], download) == Some([download(first).value, download(second).value])
  {
    var ids := [first, second];
    var b1, b2 := download(first).value, download(second).value;
    assert ids[..1] == [first] && [first][..0] == [];
    assert Fetched([first][..0], download) == Some([]);
    assert [] + [b1] == [b1] && [b1] + [b2] == [b1, b2];
    assert Fetched([first], download) == Some([b1]);
  }

  /** Through the router, "done" right after a new trade only warns and stays in the collecting
      phase; a cancel then clears everything. */
  method DoneWithoutScreenshots(s: Session, download: FileId -> Option<Bytes>, build: CollageBuilder)
    requires s.Valid()
    modifies s
    ensures s.phase == NoState && s.screenshots.None? && s.collage.None?
    ensures s.outbox == old(s.outbox) + [NewTradePrompt] + [NoScreenshots] + [Cancelled, MainMenu]
  {
    var newTrade, done, cancel := Message(Some(NewTradeButton), [], false),
      Message(Some(DoneButton), [], false), Message(Some(CancelButton), [], false);
    NewTradeRouted(s.phase);
    s.Dispatch(newTrade, download, build);
    ghost var sent := s.outbox;
    DoneRouted();
    s.Dispatch(done, download, build);
    assert s.phase == WaitingForScreenshots && s.outbox == sent + [NoScreenshots];
    CancelAlwaysRouted(WaitingForScreenshots, cancel);
    s.Dispatch(cancel, download, build);
  }
}
