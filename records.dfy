/** The records held in the forum's JSON documents. Timestamps are the
    strings `str(datetime.now())` produces; ids are `str(uuid.uuid4())`. */
module Records {

  datatype Option<T> = None | Some(value: T)

  /** A value of channels.json, keyed by channel name. */
  datatype Channel = Channel(description: string, creator: string, created: string)

  /** A value of posts.json, keyed by post id. `media` is JSON null when no
      image URL was given; `created` is optional because readers of the
      document fall back to "" when the key is missing. */
  datatype Post = Post(
    channel: string,
    author: string,
    title: string,
    text: string,
    tags: seq<string>,
    media: Option<string>,
    created: Option<string>)

  /** One element of a post's list in comments.json. */
  datatype Comment = Comment(id: string, author: string, text: string, created: string)
}
