/** Discord snowflake identifiers, which the source keeps as Python `int`s. */
module Ids {
  type GuildId = int
  type ChannelId = int
  type UserId = int
}
