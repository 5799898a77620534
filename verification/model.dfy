/** The values the bot's handlers and worker tasks pass to each other
    (bot.py): inbound messages, the per-user entries of `user_data` and
    the `(msg, new_name, caption)` tuples held by the job queue. */
module Model {

  /** Python's `None`-or-value. */
  datatype Option<+T> = None | Some(value: T)

  /** A Telegram user identifier (`message.from_user.id`). */
  type UserId = int

  /** A document, video or audio attachment, reduced to the two fields the
      bot reads: `file_name` (which Telegram may omit) and `file_size`. */
  datatype Media = Media(fileName: Option<string>, fileSize: nat)

  /** An inbound message. Each attachment kind is optional; the sender is
      the key of the session table. */
  datatype Message = Message(
    sender: UserId,
    document: Option<Media>,
    video: Option<Media>,
    audio: Option<Media>)

  /** `msg.document or msg.video or msg.audio`: the first attachment the
      message carries, in that order of preference. */
  function MediaOf(msg: Message): (r: Option<Media>)
    ensures r.None? <==> msg.document.None? && msg.video.None? && msg.audio.None?
    ensures msg.document.Some? ==> r == msg.document
    ensures msg.document.None? && msg.video.Some? ==> r == msg.video
    ensures r.Some? ==> r == msg.document || r == msg.video || r == msg.audio
  {
    if msg.document.Some? then msg.document
    else if msg.video.Some? then msg.video
    else msg.audio
  }

  /** One queued transfer: the message to fetch, the optional new name and
      the caption to upload with (always a string, possibly empty). */
  datatype Job = Job(message: Message, newName: Option<string>, caption: string)

  /** A live entry of `user_data`: the accepted message, whether the user
      chose Rename (an absent "rename" key reads as false) and the name
      typed since, if any. */
  datatype Session = Session(message: Message, rename: bool, newName: Option<string>)

  /** The entry written for a newly accepted file: only the message. */
  function FreshSession(msg: Message): Session
  {
    Session(msg, false, None)
  }
}
