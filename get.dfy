/**
  The package retrieval handler: answer `GET /registry/{name}` from the
  private cache when the package document is stored there, and otherwise from
  the upstream npm registry.
 */
module Get {
  import opened Wrappers
  import opened Json
  import opened Effects
  import opened Adapters

  /** The namespace the handler's logger is created with. */
  const LoggerName: string := "package:get"

  /** The suffix that turns a package name into its storage key. */
  const IndexSuffix: string := "/index.json"

  /** The storage error code that means "no object under this key". */
  const NoSuchKey: string := "NoSuchKey"

  function UserOf(ev: Event): User {
    User(ev.username, ev.avatar)
  }

  /** How the `try` block around the cache read ends: with a body, or with what it caught. */
  datatype Attempt = Done(body: Json) | Caught(error: JsError)

  /** Read `key`, parse the stored text and clear its attachments; any throw along the way is caught. */
  function TryCache(w: World, key: string): Attempt {
    match w.storage(key)
    case StorageError(e) => Caught(e)
    case Object(doc) =>
      match w.parse(doc)
      case SyntaxError(message) => Caught(RuntimeError(message))
      case Parsed(v) =>
        match ClearAttachments(v)
        case Some(body) => Done(body)
        case None => Caught(RuntimeError(w.typeErrorMessage(v)))
  }

  /** The `catch` block: fall back to the registry on a missing key, otherwise log and answer 500. */
  function OnStorageError(cfg: Config, ev: Event, w: World, e: JsError): seq<Effect> {
    if e.code == Some(NoSuchKey) then
      [Fetch(cfg.registry, ev.name)] +
      match w.npm(cfg.registry, ev.name)
      case Package(data) => [Reply(None, Response(Some(200), data))]
      case NpmError(ne) =>
        (if ne.status == Some(500) then [Log(LoggerName, UserOf(ev), ne)] else []) +
        [Reply(None, Response(ne.status, ErrorBody(ne.message)))]
    else
      [Log(LoggerName, UserOf(ev), e), Reply(None, Response(Some(500), ErrorBody(e.message)))]
  }

  /** Everything one invocation of the handler does, in order. */
  function Handle(cfg: Config, ev: Event, w: World): seq<Effect> {
    match w.decode(ev.name)
    case URIError(e) => [Throw(e)]
    case Decoded(name) =>
      var key := name + IndexSuffix;
      [Read(key)] +
      match TryCache(w, key)
      case Done(body) => [Reply(None, Response(Some(200), body))]
      case Caught(e) => OnStorageError(cfg, ev, w, e)
  }

  /** The response handed to `callback`, if the trace ends with one. */
  function Answer(t: seq<Effect>): Option<Response> {
    if t != [] && t[|t| - 1].Reply? then Some(t[|t| - 1].response) else None
  }

  /** The storage key of the request, when its name decodes. */
  function KeyOf(ev: Event, w: World): Option<string> {
    match w.decode(ev.name)
    case Decoded(name) => Some(name + IndexSuffix)
    case URIError(_) => None
  }

  /**
    The invocation context: the collaborators' answers for this invocation
    and the effects the handler has had on them so far.
   */
  class Host {
    const world: World
    var effects: seq<Effect>

    constructor (w: World)
      ensures world == w && effects == []
    {
      world := w;
      effects := [];
    }

    method StorageGet(key: string) returns (r: Stored)
      modifies this
      ensures effects == old(effects) + [Read(key)]
      ensures r == world.storage(key)
    {
      effects := effects + [Read(key)];
      r := world.storage(key);
    }

    method NpmPackage(registry: string, name: string) returns (r: Fetched)
      modifies this
      ensures effects == old(effects) + [Fetch(registry, name)]
      ensures r == world.npm(registry, name)
    {
      effects := effects + [Fetch(registry, name)];
      r := world.npm(registry, name);
    }

    method LogError(logger: string, user: User, e: JsError)
      modifies this
      ensures effects == old(effects) + [Log(logger, user, e)]
    {
      effects := effects + [Log(logger, user, e)];
    }

    method Callback(err: Option<JsError>, response: Response)
      modifies this
      ensures effects == old(effects) + [Reply(err, response)]
    {
      effects := effects + [Reply(err, response)];
    }

    method Reject(e: JsError)
      modifies this
      ensures effects == old(effects) + [Throw(e)]
    {
      effects := effects + [Throw(e)];
    }
  }

  /**
    The handler, step by step: decode the name, read the cache inside a
    `try`, and in the `catch` either fall back to the registry or log and
    answer 500. It has exactly the effects `Handle` describes.
   */
  method HandleGet(host: Host, cfg: Config, ev: Event)
    modifies host
    ensures host.effects == old(host.effects) + Handle(cfg, ev, host.world)
  {
    var user := UserOf(ev);
    var decoded := host.world.decode(ev.name);
    if decoded.URIError? {
      host.Reject(decoded.error);
      return;
    }
    var name := decoded.name;

    var caught: JsError;
    var stored := host.StorageGet(name + IndexSuffix);
    if stored.StorageError? {
      caught := stored.error;
    } else {
      var parsed := host.world.parse(stored.doc);
      if parsed.SyntaxError? {
        caught := RuntimeError(parsed.message);
      } else {
        var json := ClearAttachments(parsed.value);
        if json.Some? {
          host.Callback(None, Response(Some(200), json.value));
          return;
        }
        caught := RuntimeError(host.world.typeErrorMessage(parsed.value));
      }
    }
    assert TryCache(host.world, name + IndexSuffix) == Caught(caught);

    if caught.code == Some(NoSuchKey) {
      var fetched := host.NpmPackage(cfg.registry, ev.name);
      if fetched.Package? {
        host.Callback(None, Response(Some(200), fetched.data));
        return;
      }
      var npmError := fetched.error;
      if npmError.status == Some(500) {
        host.LogError(LoggerName, user, npmError);
      }
      host.Callback(None, Response(npmError.status, ErrorBody(npmError.message)));
      return;
    }

    host.LogError(LoggerName, user, caught);
    host.Callback(None, Response(Some(500), ErrorBody(caught.message)));
  }
}
