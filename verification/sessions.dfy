/** The per-user submission state machine: the `user_data` table and the
    job queue, driven by the five handlers of bot.py. Each handler is a pure
    transition from the bot's state to its next state plus the one message
    it sends (a new reply, or an edit of the message holding the buttons). */
module Sessions {
  import opened Model
  import Admission

  /** `user_data`: at most one live session per user. */
  type Table = map<UserId, Session>

  /** The shared state: the session table and the FIFO job queue. */
  datatype Bot = Bot(sessions: Table, queue: seq<Job>)

  /** What a handler sends back to the user. */
  datatype Notice = Reply(text: string) | EditPrompt(text: string)

  datatype Transition = Transition(next: Bot, notice: Option<Notice>)

  const RenameData: string := "rename"
  const SkipData: string := "skip"

  const ChooseOptionText: string := "Choose option"
  const AskNameText: string := "Send new file name"
  const AskCaptionText: string := "Send caption or type /skipcaption"
  const QueuedText: string := "Added to Queue"

  /** A handler that returns without touching anything or saying anything. */
  function Ignore(b: Bot): Transition
  {
    Transition(b, None)
  }

  /** `b'` is `b` with user `u`'s session completed: that session is gone,
      exactly one job carrying its message sits at the back of the queue,
      and every other entry and every earlier job is untouched. */
  predicate Completes(b: Bot, b': Bot, u: UserId)
  {
    && u in b.sessions
    && b'.sessions == b.sessions - {u}
    && |b'.queue| == |b.queue| + 1
    && b'.queue[..|b.queue|] == b.queue
    && b'.queue[|b.queue|].message == b.sessions[u].message
  }

  /** `media_handler`: a document, video or audio message. A file of
      admissible size replaces the sender's session by a fresh one; any
      other size is refused with a reply and changes nothing. */
  function OnMedia(b: Bot, msg: Message): (t: Transition)
    ensures t.next.queue == b.queue
    ensures t.next.sessions - {msg.sender} == b.sessions - {msg.sender}
    ensures MediaOf(msg).None? ==> t == Ignore(b)
    ensures MediaOf(msg).Some? && !Admission.Admissible(MediaOf(msg).value.fileSize) ==>
      t.next == b && t.notice == Some(Reply(Admission.RejectReply))
    ensures MediaOf(msg).Some? && Admission.Admissible(MediaOf(msg).value.fileSize) ==>
      && msg.sender in t.next.sessions
      && t.next.sessions[msg.sender] == FreshSession(msg)
      && t.notice == Some(Reply(ChooseOptionText))
  {
    match MediaOf(msg)
    case None => Ignore(b)
    case Some(media) =>
      match Admission.Admit(media.fileSize)
      case Rejected(reply) => Transition(b, Some(Reply(reply)))
      case Eligible =>
        Transition(Bot(b.sessions[msg.sender := FreshSession(msg)], b.queue), Some(Reply(ChooseOptionText)))
  }

  /** `callback_handler`: an inline-button press. "rename" raises the
      user's rename flag; "skip" queues the file unrenamed and uncaptioned
      and ends the session, whatever stage it had reached. */
  function OnCallback(b: Bot, user: UserId, data: string): (t: Transition)
    ensures user !in b.sessions ==> t == Ignore(b)
    ensures data != RenameData && data != SkipData ==> t == Ignore(b)
    ensures user in b.sessions && data == RenameData ==>
      && t.next.queue == b.queue
      && t.next.sessions == b.sessions[user := b.sessions[user].(rename := true)]
      && t.notice == Some(EditPrompt(AskNameText))
    ensures user in b.sessions && data == SkipData ==>
      && Completes(b, t.next, user)
      && t.next.queue == b.queue + [Job(b.sessions[user].message, None, "")]
      && t.notice == Some(EditPrompt(QueuedText))
  {
    if user !in b.sessions then Ignore(b)
    else if data == RenameData then
      var s := b.sessions[user];
      Transition(Bot(b.sessions[user := s.(rename := true)], b.queue), Some(EditPrompt(AskNameText)))
    else if data == SkipData then
      var job := Job(b.sessions[user].message, None, "");
      Transition(Bot(b.sessions - {user}, b.queue + [job]), Some(EditPrompt(QueuedText)))
    else Ignore(b)
  }

  /** `rename_input`: free text from a user who chose Rename becomes the
      new name. The flag stays raised, so a later text overwrites it. */
  function OnNameText(b: Bot, user: UserId, text: string): (t: Transition)
    ensures t.next.queue == b.queue
    ensures !(user in b.sessions && b.sessions[user].rename) ==> t == Ignore(b)
    ensures user in b.sessions && b.sessions[user].rename ==>
      && t.next.sessions == b.sessions[user := b.sessions[user].(newName := Some(text))]
      && t.next.sessions[user].rename
      && t.notice == Some(Reply(AskCaptionText))
  {
    if user in b.sessions && b.sessions[user].rename then
      var s := b.sessions[user];
      Transition(Bot(b.sessions[user := s.(newName := Some(text))], b.queue), Some(Reply(AskCaptionText)))
    else Ignore(b)
  }

  /** `skip_caption`: `/skipcaption` queues the file with whatever name is
      stored (none before Rename was chosen) and an empty caption. */
  function OnSkipCaption(b: Bot, user: UserId): (t: Transition)
    ensures user !in b.sessions ==> t == Ignore(b)
    ensures user in b.sessions ==>
      && Completes(b, t.next, user)
      && t.next.queue == b.queue + [Job(b.sessions[user].message, b.sessions[user].newName, "")]
      && t.notice == Some(Reply(QueuedText))
  {
    if user in b.sessions then
      var s := b.sessions[user];
      Transition(Bot(b.sessions - {user}, b.queue + [Job(s.message, s.newName, "")]), Some(Reply(QueuedText)))
    else Ignore(b)
  }

  /** `caption_input`: once a new name is stored, free text is the caption;
      the file is queued with both and the session ends. */
  function OnCaptionText(b: Bot, user: UserId, text: string): (t: Transition)
    ensures !(user in b.sessions && b.sessions[user].newName.Some?) ==> t == Ignore(b)
    ensures user in b.sessions && b.sessions[user].newName.Some? ==>
      && Completes(b, t.next, user)
      && t.next.queue == b.queue + [Job(b.sessions[user].message, b.sessions[user].newName, text)]
      && t.notice == Some(Reply(QueuedText))
  {
    if user in b.sessions && b.sessions[user].newName.Some? then
      var s := b.sessions[user];
      Transition(Bot(b.sessions - {user}, b.queue + [Job(s.message, s.newName, text)]), Some(Reply(QueuedText)))
    else Ignore(b)
  }

  /** One inbound event, routed to the handler registered for it. */
  datatype Event =
    | FileSent(msg: Message)
    | ButtonPressed(user: UserId, data: string)
    | NameText(user: UserId, text: string)
    | SkipCaptionCommand(user: UserId)
    | CaptionText(user: UserId, text: string)

  /** The user whose session an event addresses. */
  function Actor(e: Event): UserId
  {
    match e
    case FileSent(msg) => msg.sender
    case ButtonPressed(user, _) => user
    case NameText(user, _) => user
    case SkipCaptionCommand(user) => user
    case CaptionText(user, _) => user
  }

  /** The handlers taken together: an event changes at most its actor's
      session, and either leaves the queue alone or completes that session
      with exactly one job appended at the back. */
  function Handle(b: Bot, e: Event): (t: Transition)
    ensures t.next.sessions - {Actor(e)} == b.sessions - {Actor(e)}
    ensures t.next.queue == b.queue || Completes(b, t.next, Actor(e))
    ensures |b.queue| <= |t.next.queue| <= |b.queue| + 1
    ensures t.next.queue[..|b.queue|] == b.queue
  {
    match e
    case FileSent(msg) => OnMedia(b, msg)
    case ButtonPressed(user, data) => OnCallback(b, user, data)
    case NameText(user, text) => OnNameText(b, user, text)
    case SkipCaptionCommand(user) => OnSkipCaption(b, user)
    case CaptionText(user, text) => OnCaptionText(b, user, text)
  }

  /** A user with no live session can change nothing except by sending a
      file: buttons, names, captions and `/skipcaption` are ignored without
      a reply. */
  lemma NoSessionNoEffect(b: Bot, e: Event)
    requires !e.FileSent?
    requires Actor(e) !in b.sessions
    ensures Handle(b, e) == Ignore(b)
  {
  }

  /** A refused file size changes neither the table nor the queue. */
  lemma RejectedFileChangesNothing(b: Bot, msg: Message)
    requires MediaOf(msg).Some?
    requires !Admission.Admissible(MediaOf(msg).value.fileSize)
    ensures OnMedia(b, msg).next == b
  {
  }

  /** The stages a live session passes through. */
  datatype Stage = Collected | AwaitingName | AwaitingCaption

  /** A session's stage, read off its fields: a stored name means the
      caption is awaited; a raised flag alone means the name is. */
  function StageOf(s: Session): Stage
  {
    if s.newName.Some? then AwaitingCaption
    else if s.rename then AwaitingName
    else Collected
  }

  function Rank(st: Stage): nat
  {
    match st
    case Collected => 0
    case AwaitingName => 1
    case AwaitingCaption => 2
  }

  /** A name is stored only after Rename was chosen. */
  predicate Coherent(s: Session)
  {
    s.newName.Some? ==> s.rename
  }

  predicate CoherentTable(m: Table)
  {
    forall u :: u in m ==> Coherent(m[u])
  }

  /** Every handler keeps every live session coherent. */
  lemma HandleKeepsCoherent(b: Bot, e: Event)
    requires CoherentTable(b.sessions)
    ensures CoherentTable(Handle(b, e).next.sessions)
  {
  }

  /** Except for a new file, which starts over, no event moves a session
      that survives it back to an earlier stage. */
  lemma StageNeverRegresses(b: Bot, e: Event, u: UserId)
    requires !e.FileSent?
    requires u in b.sessions
    requires u in Handle(b, e).next.sessions
    ensures Rank(StageOf(b.sessions[u])) <= Rank(StageOf(Handle(b, e).next.sessions[u]))
  {
  }

  /** File, then Skip: queued with no name and no caption. */
  lemma SkipFlow(b: Bot, msg: Message)
    requires MediaOf(msg).Some? && Admission.Admissible(MediaOf(msg).value.fileSize)
    ensures var b1 := OnMedia(b, msg).next;
            var b2 := OnCallback(b1, msg.sender, SkipData).next;
            && b2.queue == b.queue + [Job(msg, None, "")]
            && b2.sessions == b.sessions - {msg.sender}
  {
  }

  /** File, Rename, a name `x`, then `/skipcaption`: queued as `x` with an
      empty caption. */
  lemma RenameThenSkipCaptionFlow(b: Bot, msg: Message, x: string)
    requires MediaOf(msg).Some? && Admission.Admissible(MediaOf(msg).value.fileSize)
    ensures var u := msg.sender;
            var b1 := OnMedia(b, msg).next;
            var b2 := OnCallback(b1, u, RenameData).next;
            var b3 := OnNameText(b2, u, x).next;
            var b4 := OnSkipCaption(b3, u).next;
            && b4.queue == b.queue + [Job(msg, Some(x), "")]
            && b4.sessions == b.sessions - {u}
  {
  }

  /** File, Rename, a name `x`, then a caption `y`: queued as `x` with
      caption `y`. */
  lemma RenameThenCaptionFlow(b: Bot, msg: Message, x: string, y: string)
    requires MediaOf(msg).Some? && Admission.Admissible(MediaOf(msg).value.fileSize)
    ensures var u := msg.sender;
            var b1 := OnMedia(b, msg).next;
            var b2 := OnCallback(b1, u, RenameData).next;
            var b3 := OnNameText(b2, u, x).next;
            var b4 := OnCaptionText(b3, u, y).next;
            && b4.queue == b.queue + [Job(msg, Some(x), y)]
            && b4.sessions == b.sessions - {u}
  {
  }

  /** `/skipcaption` is honoured straight after the file, before any
      button: the file is queued unrenamed. */
  lemma EarlySkipCaptionFlow(b: Bot, msg: Message)
    requires MediaOf(msg).Some? && Admission.Admissible(MediaOf(msg).value.fileSize)
    ensures var b1 := OnMedia(b, msg).next;
            var b2 := OnSkipCaption(b1, msg.sender).next;
            && b2.queue == b.queue + [Job(msg, None, "")]
            && b2.sessions == b.sessions - {msg.sender}
  {
  }

  /** Two texts in a row while renaming: the second replaces the first. */
  lemma LastNameWins(b: Bot, u: UserId, x: string, z: string)
    requires u in b.sessions && b.sessions[u].rename
    ensures var b2 := OnNameText(OnNameText(b, u, x).next, u, z).next;
            && u in b2.sessions
            && b2.sessions[u] == b.sessions[u].(newName := Some(z))
            && b2.queue == b.queue
  {
  }
}
