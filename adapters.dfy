/**
  The collaborators of the GET handler, seen only through their outcomes.
  The S3 storage adapter, the npm registry adapter and the JavaScript runtime
  (decodeURIComponent, JSON.parse, the TypeError a bad property assignment
  raises) are oracles: a `World` says what each answers when asked.
 */
module Adapters {
  import opened Json
  import opened Effects

  /** What decodeURIComponent gives: the decoded text, or the URIError it throws. */
  datatype Decoded = Decoded(name: string) | URIError(error: JsError)

  /** What storage.get resolves to (the stored document's text) or rejects with. */
  datatype Stored = Object(doc: string) | StorageError(error: JsError)

  /** What JSON.parse returns, or the message of the SyntaxError it throws. */
  datatype Parsed = Parsed(value: Json) | SyntaxError(message: string)

  /** What npm.package resolves to (the registry's document) or rejects with. */
  datatype Fetched = Package(data: Json) | NpmError(error: JsError)

  datatype World = World(
    decode: string -> Decoded,
    storage: string -> Stored,
    parse: string -> Parsed,
    npm: (string, string) -> Fetched,
    // the message of the TypeError thrown when a property is set on this value
    typeErrorMessage: Json -> string)

  /** The environment the handler reads: the upstream registry's base URL. */
  datatype Config = Config(registry: string)

  /** The request: the authorizer's username and avatar, and the raw `name` path parameter. */
  datatype Event = Event(username: string, avatar: string, name: string)
}
