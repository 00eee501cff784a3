/**
  The bot's handlers and their routing. Each update comes from one sender
  and may change only that sender's context. Handlers are tried in the
  order they are registered, and the first one whose filters match runs.
  A handler without a state filter matches in every state:
    message "/start"              -> cmd_start (any state)
    message "/admin"              -> cmd_admin (any state)
    other message                 -> process_broadcast_content, in AwaitingContent only
    button data "admin_…"         -> admin_callbacks (any state)
    any other button data         -> confirm_broadcast_send, in AwaitingConfirmation only
  Everything else goes unhandled and changes nothing.
 */
module Bot {
  import opened Wrappers
  import opened Text
  import opened Access
  import opened Directory
  import opened Session
  import opened Export
  import opened Broadcast

  datatype MessageKind = StartCommand | AdminCommand | OtherMessage

  /** An incoming update, without its sender. */
  datatype Update =
    | Message(kind: MessageKind, msgId: int, chatId: int)
    | Callback(data: string)

  /** What the bot answers with (texts and keyboards are not modelled). */
  datatype Response =
    | NoResponse                              // ignored, unmatched or unauthorized
    | Welcome
    | Panel(totalUsers: nat)                  // the admin panel, or its refresh
    | ExportFile(contents: string)
    | AskForContent
    | PreviewAndConfirm(draft: Draft)         // preview copy plus send/cancel buttons
    | Cancelled
    | Report(total: nat, sent: nat, failed: nat)
    | Raised                                  // the handler ended in an exception

  // ---- the sender's context after each handler ----

  /** `admin_callbacks`: only the `broadcast` action of an operator changes
      the context, and it keeps any earlier draft. */
  function AfterAdminCallback(c: Context, sender: int, data: string): Context {
    if IsAdmin(sender) && ActionOf(data) == Some("broadcast") then c.(phase := AwaitingContent) else c
  }

  /** `process_broadcast_content`: an operator's message becomes the draft. */
  function AfterContent(c: Context, sender: int, draft: Draft): Context {
    if IsAdmin(sender) then Context(AwaitingConfirmation, Some(draft)) else c
  }

  /** `confirm_broadcast_send`: no allow-list test; `cancel_send` clears,
      any other data sends and then clears, unless reading the draft or the
      snapshot raises first. */
  function AfterConfirm(c: Context, data: string, dbUp: bool): Context {
    if data == CANCEL_DATA then FRESH
    else if c.draft.None? || !dbUp then c
    else FRESH
  }

  /** The sender's context after one update, routed as the handlers are
      registered. `dbUp` says whether the database reads succeed. */
  function Next(c: Context, sender: int, u: Update, dbUp: bool): Context {
    match u
    case Message(kind, msgId, chatId) =>
      if kind == OtherMessage && c.phase == AwaitingContent
      then AfterContent(c, sender, Draft(msgId, chatId))
      else c
    case Callback(data) =>
      if StartsWith(data, ADMIN_PREFIX) then AfterAdminCallback(c, sender, data)
      else if c.phase == AwaitingConfirmation then AfterConfirm(c, data, dbUp)
      else c
  }

  /** The sender's context after a run of updates. */
  function Run(c: Context, sender: int, updates: seq<(Update, bool)>): Context {
    if updates == [] then c
    else
      var last := updates[|updates| - 1];
      Next(Run(c, sender, updates[..|updates| - 1]), sender, last.0, last.1)
  }

  // ---- properties of the workflow ----

  /** A non-operator's message or admin-panel button changes nothing. */
  lemma NonAdminGated(c: Context, sender: int, u: Update, dbUp: bool)
    requires !IsAdmin(sender)
    requires u.Message? || StartsWith(u.data, ADMIN_PREFIX)
    ensures Next(c, sender, u, dbUp) == c
  {
  }

  /** The broadcast button, pressed by an operator in any state, asks for
      content and keeps the old draft until it is overwritten. */
  lemma BroadcastButtonStartsCompose(c: Context, sender: int, dbUp: bool)
    requires IsAdmin(sender)
    ensures Next(c, sender, Callback(BROADCAST_DATA), dbUp) == Context(AwaitingContent, c.draft)
  {
    ButtonAction(BROADCAST_DATA, "broadcast");
    assert BROADCAST_DATA[..|ADMIN_PREFIX|] == ADMIN_PREFIX;
  }

  /** An operator's message while content is awaited is stored as the draft
      and confirmation is awaited. */
  lemma ContentCaptured(c: Context, sender: int, msgId: int, chatId: int, dbUp: bool)
    requires IsAdmin(sender) && c.phase == AwaitingContent
    ensures Next(c, sender, Message(OtherMessage, msgId, chatId), dbUp)
         == Context(AwaitingConfirmation, Some(Draft(msgId, chatId)))
  {
  }

  /** While confirmation is awaited, `cancel_send` clears state and data,
      whether or not a draft is stored and whatever the database does. */
  lemma CancelClears(c: Context, sender: int, dbUp: bool)
    requires c.phase == AwaitingConfirmation
    ensures Next(c, sender, Callback(CANCEL_DATA), dbUp) == FRESH
  {
    ConfirmButtonsNotAdmin();
  }

  /** While confirmation is awaited, any other non-`admin_` data with a
      stored draft and a readable snapshot runs the broadcast and clears
      state and data. */
  lemma ConfirmClears(c: Context, sender: int, data: string)
    requires c.phase == AwaitingConfirmation && c.draft.Some?
    requires !StartsWith(data, ADMIN_PREFIX)
    ensures Next(c, sender, Callback(data), true) == FRESH
  {
  }

  /** As written, the confirm handler tests no allow-list: a context awaiting
      confirmation is cleared even for a sender who is not an operator. */
  lemma ConfirmHandlerUngated(d: Draft)
    ensures !IsAdmin(0)
    ensures Next(Context(AwaitingConfirmation, Some(d)), 0, Callback(CONFIRM_DATA), true) == FRESH
  {
    ConfirmButtonsNotAdmin();
  }

  /** The invariant of every reachable context: only operators ever leave
      Idle, and a context awaiting confirmation holds a draft. */
  predicate ContextOk(c: Context, sender: int) {
    (c.phase != Idle ==> IsAdmin(sender))
    && (c.phase == AwaitingConfirmation ==> c.draft.Some?)
  }

  /** Every update keeps the invariant. */
  lemma NextKeepsContextOk(c: Context, sender: int, u: Update, dbUp: bool)
    requires ContextOk(c, sender)
    ensures ContextOk(Next(c, sender, u, dbUp), sender)
  {
  }

  /** From a fresh context, every run keeps the invariant: the confirm
      handler never meets a missing draft (no KeyError on `msg_id`). */
  lemma {:induction false} RunKeepsContextOk(sender: int, updates: seq<(Update, bool)>)
    ensures ContextOk(Run(FRESH, sender, updates), sender)
    // a corollary of the first clause, spelled out for the `data['msg_id']` lookup
    ensures Run(FRESH, sender, updates).phase == AwaitingConfirmation
        ==> Run(FRESH, sender, updates).draft.Some?
  {
    if updates != [] {
      var last := updates[|updates| - 1];
      RunKeepsContextOk(sender, updates[..|updates| - 1]);
      NextKeepsContextOk(Run(FRESH, sender, updates[..|updates| - 1]), sender, last.0, last.1);
    }
  }

  /** A non-operator's context stays fresh whatever it sends, so the missing
      allow-list test in the confirm handler is never reached by one. */
  lemma {:induction false} NonAdminStaysFresh(sender: int, updates: seq<(Update, bool)>)
    requires !IsAdmin(sender)
    ensures Run(FRESH, sender, updates) == FRESH
  {
    if updates != [] {
      NonAdminStaysFresh(sender, updates[..|updates| - 1]);
    }
  }

  // ---- the handlers over the bot's state ----

  class AdminBot {
    const directory: RecipientDirectory
    const storage: FsmStorage

    /** The primary key of the users table, and the invariant of every
        reachable context (see `RunKeepsContextOk`). */
    ghost predicate Valid()
      reads this, directory, storage
    {
      directory.Valid()
      && forall u :: ContextOk(storage.Get(u), u)
    }

    /** Start-up: the users table as the database file keeps it across
        restarts, and no contexts (they live in memory only). */
    constructor (persisted: seq<User>)
      requires Distinct(IdsOf(persisted))
      ensures Valid() && fresh(directory) && fresh(storage)
      ensures directory.rows == persisted && storage.contexts == map[]
    {
      directory := new RecipientDirectory(persisted);
      storage := new FsmStorage();
    }

    /** `cmd_start`: registers the sender, then welcomes them; a failed
        insert is swallowed, but a failed connection ends the handler
        before the welcome. */
    method CmdStart(from: User, connects: bool, writes: bool) returns (r: Response)
      requires Valid()
      modifies directory
      ensures Valid()
      ensures directory.rows == if connects && writes then Inserted(old(directory.rows), from) else old(directory.rows)
      ensures r == if connects then Welcome else Raised
    {
      var raised := directory.AddUser(from, connects, writes);
      r := if raised then Raised else Welcome;
    }

    /** `cmd_admin`: operators get the panel with the number of registered
        users; anyone else gets no answer. */
    method CmdAdmin(sender: int, dbUp: bool) returns (r: Response)
      requires Valid()
      ensures !IsAdmin(sender) ==> r == NoResponse
      ensures IsAdmin(sender) && dbUp ==> r == Panel(|directory.Registered()|)
      ensures IsAdmin(sender) && !dbUp ==> r == Raised
    {
      if !IsAdmin(sender) {
        return NoResponse;
      }
      var total := directory.GetStats(dbUp);
      r := if total.Some? then Panel(total.value) else Raised;
    }

    /** `admin_callbacks`: for operators only, `refresh` re-reads the count,
        `export` produces the id file, `broadcast` asks for content. */
    method AdminCallbacks(sender: int, data: string, dbUp: bool) returns (r: Response)
      requires Valid()
      modifies storage
      ensures Valid()
      ensures storage.Get(sender) == AfterAdminCallback(old(storage.Get(sender)), sender, data)
      ensures forall u :: u != sender ==> storage.Get(u) == old(storage.Get(u))
      ensures !IsAdmin(sender) ==> r == NoResponse && storage.contexts == old(storage.contexts)
      ensures IsAdmin(sender) && ActionOf(data).None? ==> r == Raised
      ensures IsAdmin(sender) && ActionOf(data) == Some("refresh") ==>
        r == if dbUp then Panel(|directory.Registered()|) else Raised
      ensures IsAdmin(sender) && ActionOf(data) == Some("export") ==>
        r == if dbUp then ExportFile(ExportText(IdsOf(directory.rows))) else Raised
      ensures IsAdmin(sender) && ActionOf(data) == Some("broadcast") ==> r == AskForContent
      ensures IsAdmin(sender) && ActionOf(data).Some? ==>
        ActionOf(data).value !in {"refresh", "export", "broadcast"} ==> r == NoResponse
    {
      if !IsAdmin(sender) {
        return NoResponse;
      }
      var action := ActionOf(data);
      if action.None? {
        return Raised;
      }
      if action.value == "refresh" {
        var total := directory.GetStats(dbUp);
        r := if total.Some? then Panel(total.value) else Raised;
      } else if action.value == "export" {
        var users := directory.GetAllUsers(dbUp);
        if users.None? {
          return Raised;
        }
        var contents := WriteUsersFile(users.value);
        r := ExportFile(contents);
      } else if action.value == "broadcast" {
        storage.SetState(sender, AwaitingContent);
        forall u ensures ContextOk(storage.Get(u), u) {
          assert old(ContextOk(storage.Get(u), u));
        }
        r := AskForContent;
      } else {
        r := NoResponse;
      }
    }

    /** `process_broadcast_content`: an operator's message is stored as the
        draft, previewed back, and confirmation is awaited. */
    method ProcessBroadcastContent(sender: int, msgId: int, chatId: int) returns (r: Response)
      requires Valid()
      modifies storage
      ensures Valid()
      ensures storage.Get(sender) == AfterContent(old(storage.Get(sender)), sender, Draft(msgId, chatId))
      ensures forall u :: u != sender ==> storage.Get(u) == old(storage.Get(u))
      ensures !IsAdmin(sender) ==> storage.contexts == old(storage.contexts)
      ensures r == if IsAdmin(sender) then PreviewAndConfirm(Draft(msgId, chatId)) else NoResponse
    {
      if !IsAdmin(sender) {
        return NoResponse;
      }
      storage.UpdateData(sender, Draft(msgId, chatId));
      storage.SetState(sender, AwaitingConfirmation);
      forall u ensures ContextOk(storage.Get(u), u) {
        assert old(ContextOk(storage.Get(u), u));
      }
      r := PreviewAndConfirm(Draft(msgId, chatId));
    }

    /** `confirm_broadcast_send`: `cancel_send` discards the draft without a
        single delivery; any other data copies the draft to every id of a
        fresh snapshot, reports the two counters to the sender and clears. */
    method ConfirmBroadcastSend(sender: int, data: string, dbUp: bool, deliver: int -> bool)
      returns (r: Response, trace: seq<Step>)
      requires Valid()
      modifies storage
      ensures Valid()
      ensures storage.Get(sender) == AfterConfirm(old(storage.Get(sender)), data, dbUp)
      ensures forall u :: u != sender ==> storage.Get(u) == old(storage.Get(u))
      ensures data == CANCEL_DATA ==> r == Cancelled && trace == []
      ensures data != CANCEL_DATA && (old(storage.Get(sender)).draft.None? || !dbUp) ==>
        r == Raised && trace == []
      ensures old(storage.Get(sender)).phase == AwaitingConfirmation && data != CANCEL_DATA && dbUp ==> r.Report?
      ensures data != CANCEL_DATA && old(storage.Get(sender)).draft.Some? && dbUp ==>
        var users := IdsOf(directory.rows);
        trace == Trace(users, old(storage.Get(sender)).draft.value, deliver)
        && r == Report(|users|, |Delivered(users, deliver)|, |Failed(users, deliver)|)
    {
      if data == CANCEL_DATA {
        storage.Clear(sender);
        forall u ensures ContextOk(storage.Get(u), u) {
          assert old(ContextOk(storage.Get(u), u));
        }
        return Cancelled, [];
      }
      var draft := storage.GetDraft(sender);
      if draft.None? {
        return Raised, [];
      }
      var users := directory.GetAllUsers(dbUp);
      if users.None? {
        return Raised, [];
      }
      var success, blocked;
      success, blocked, trace := RunBroadcast(users.value, draft.value, deliver);
      r := Report(|users.value|, success, blocked);
      storage.Clear(sender);
      forall u ensures ContextOk(storage.Get(u), u) {
        assert old(ContextOk(storage.Get(u), u));
      }
    }

    /** Routing of a message from `from`. */
    method HandleMessage(from: User, kind: MessageKind, msgId: int, chatId: int, connects: bool, dbUp: bool)
      returns (r: Response)
      requires Valid()
      modifies directory, storage
      ensures Valid()
      ensures storage.Get(from.id) == Next(old(storage.Get(from.id)), from.id, Message(kind, msgId, chatId), dbUp)
      ensures forall u :: u != from.id ==> storage.Get(u) == old(storage.Get(u))
      ensures directory.rows == if kind == StartCommand && connects && dbUp
                                then Inserted(old(directory.rows), from) else old(directory.rows)
      ensures kind == StartCommand ==> r == if connects then Welcome else Raised
      ensures kind == AdminCommand ==>
        r == if !IsAdmin(from.id) then NoResponse
             else if connects && dbUp then Panel(|directory.Registered()|) else Raised
      ensures kind == OtherMessage && old(storage.Get(from.id)).phase == AwaitingContent ==>
        r == if IsAdmin(from.id) then PreviewAndConfirm(Draft(msgId, chatId)) else NoResponse
      ensures kind == OtherMessage && old(storage.Get(from.id)).phase != AwaitingContent ==> r == NoResponse
    {
      if kind == StartCommand {
        r := CmdStart(from, connects, dbUp);
      } else if kind == AdminCommand {
        r := CmdAdmin(from.id, connects && dbUp);
      } else if storage.Get(from.id).phase == AwaitingContent {
        r := ProcessBroadcastContent(from.id, msgId, chatId);
      } else {
        r := NoResponse;
      }
    }

    /** Routing of a button press from `sender`; `trace` holds the
        deliveries made, if the press ran a broadcast. */
    method HandleCallback(sender: int, data: string, dbUp: bool, deliver: int -> bool)
      returns (r: Response, trace: seq<Step>)
      requires Valid()
      modifies storage
      ensures Valid()
      ensures storage.Get(sender) == Next(old(storage.Get(sender)), sender, Callback(data), dbUp)
      ensures forall u :: u != sender ==> storage.Get(u) == old(storage.Get(u))
      ensures trace != [] ==> old(storage.Get(sender)).phase == AwaitingConfirmation
      ensures StartsWith(data, ADMIN_PREFIX) ==> trace == []
      ensures !StartsWith(data, ADMIN_PREFIX) && data != CANCEL_DATA && dbUp ==>
        old(storage.Get(sender)).phase == AwaitingConfirmation ==> r.Report?
      ensures StartsWith(data, ADMIN_PREFIX) && !IsAdmin(sender) ==> r == NoResponse
      ensures !StartsWith(data, ADMIN_PREFIX) && old(storage.Get(sender)).phase != AwaitingConfirmation ==>
        r == NoResponse && trace == []
      ensures !StartsWith(data, ADMIN_PREFIX) && old(storage.Get(sender)).phase == AwaitingConfirmation ==>
        if data == CANCEL_DATA then r == Cancelled && trace == []
        else if old(storage.Get(sender)).draft.None? || !dbUp then r == Raised && trace == []
        else
          var users := IdsOf(directory.rows);
          trace == Trace(users, old(storage.Get(sender)).draft.value, deliver)
          && r == Report(|users|, |Delivered(users, deliver)|, |Failed(users, deliver)|)
    {
      if StartsWith(data, ADMIN_PREFIX) {
        r := AdminCallbacks(sender, data, dbUp);
        trace := [];
      } else if storage.Get(sender).phase == AwaitingConfirmation {
        r, trace := ConfirmBroadcastSend(sender, data, dbUp, deliver);
      } else {
        r, trace := NoResponse, [];
      }
    }
  }
}
