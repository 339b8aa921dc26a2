/** What the client asks of its surroundings, passed in as one record of pure
    functions: the HTTP transport, the file system consulted while building
    the secure channel, the JSON reader of the Keystone exchange and
    `URI.create` for the Keystone URI. */
module Platform {
  import opened Wrappers
  import opened Http

  /** The parts of a Keystone response body the client reads: `access.token.id`
      and the `name` of every object of the `tenants` array, in order.  A
      missing `tenants` key is None. */
  datatype JsonDoc = JsonDoc(tokenId: Option<string>, tenants: Option<seq<string>>)

  /** What the JSON reader makes of a body: the document it reads, an
      `IOException` (text that is not JSON, or ends too early), or an
      `IllegalStateException` (JSON whose shape differs from the one read
      for, such as an array where an object is expected). */
  datatype JsonRead = Read(doc: JsonDoc) | Malformed | WrongShape

  /** A parsed Keystone URI: its origin (scheme, host and port) and its path,
      which `URI.getPath` may report as null. */
  datatype KeystoneUri = KeystoneUri(origin: string, path: Option<string>)

  datatype Platform = Platform(
    transport: Transport,
    isDirectory: string -> bool,
    listDirectory: string -> seq<string>,
    /** The whole content of a file, or None for an `IOException`. */
    readFile: string -> Option<string>,
    decodeJson: string -> JsonRead,
    /** None for text `URI.create` or `HttpHost` rejects. */
    parseUri: string -> Option<KeystoneUri>)
}
