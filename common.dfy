/** Shared value types: JavaScript's `null`/`undefined` results and the
    `{ success, message }` replies the store modules hand back to the chat layer. */
module Common {

  /** A value that may be absent (`null` or `undefined` in the source). */
  datatype Option<+T> = None | Some(value: T)

  /** A successful value or the reason an operation was refused. */
  datatype Result<+T, +E> = Ok(value: T) | Err(error: E)

  /** The `{ success, message }` object relayed verbatim to the chat user. */
  datatype Reply = Reply(success: bool, message: string)

  type GuildId = string
  type UserId = string
  type ChannelId = string
  /** Riot's opaque stable player identifier. */
  type Puuid = string
}
