/**
  What every invocation of the GET handler guarantees, stated over the
  effect trace `Handle` gives for any request and any collaborator answers.
 */
module GetProperties {
  import opened Wrappers
  import opened Json
  import opened Effects
  import opened Adapters
  import opened Get

  /** A name that does not decode makes the handler throw before it touches storage, the registry or the logger. */
  lemma UndecodableNameRejects(cfg: Config, ev: Event, w: World)
    requires w.decode(ev.name).URIError?
    ensures Handle(cfg, ev, w) == [Throw(w.decode(ev.name).error)]
    ensures Answer(Handle(cfg, ev, w)) == None
  {
  }

  /** Storage is read exactly once, first, under the decoded name followed by `/index.json`. */
  lemma ReadsOnlyTheIndexKey(cfg: Config, ev: Event, w: World, name: string)
    requires w.decode(ev.name) == Decoded(name)
    ensures Handle(cfg, ev, w)[0] == Read(name + "/index.json")
    ensures Select(Handle(cfg, ev, w), ReadKind) == [Read(name + "/index.json")]
  {
    var key := name + IndexSuffix;
    var rest := Handle(cfg, ev, w)[1..];
    assert Handle(cfg, ev, w) == [Read(key)] + rest;
    SelectAppend([Read(key)], rest, ReadKind);
    SelectAbsent(rest, ReadKind);
  }

  /** The five traces of a name that decodes, one per way the handler can answer. */
  lemma DecodedTraces(cfg: Config, ev: Event, w: World, name: string)
    requires w.decode(ev.name) == Decoded(name)
    ensures var key := name + IndexSuffix;
      var user := UserOf(ev);
      var t := Handle(cfg, ev, w);
      match TryCache(w, key)
      case Done(body) => t == [Read(key), Reply(None, Response(Some(200), body))]
      case Caught(e) =>
        if e.code != Some(NoSuchKey) then
          t == [Read(key), Log(LoggerName, user, e), Reply(None, Response(Some(500), ErrorBody(e.message)))]
        else match w.npm(cfg.registry, ev.name)
          case Package(data) => t == [Read(key), Fetch(cfg.registry, ev.name), Reply(None, Response(Some(200), data))]
          case NpmError(ne) =>
            var reply := Reply(None, Response(ne.status, ErrorBody(ne.message)));
            if ne.status == Some(500) then
              t == [Read(key), Fetch(cfg.registry, ev.name), Log(LoggerName, user, ne), reply]
            else
              t == [Read(key), Fetch(cfg.registry, ev.name), reply]
  {
  }


  /** The effects of kind `k` in the trace of a decoded request, taken one position at a time. */
  lemma DecodedSelections(cfg: Config, ev: Event, w: World, name: string, k: Kind)
    requires w.decode(ev.name) == Decoded(name)
    ensures var t := Handle(cfg, ev, w);
      match |t|
      case 2 => Select(t, k) == Pick(t[0], k) + Pick(t[1], k)
      case 3 => Select(t, k) == Pick(t[0], k) + (Pick(t[1], k) + Pick(t[2], k))
      case _ => Select(t, k) == Pick(t[0], k) + (Pick(t[1], k) + (Pick(t[2], k) + Pick(t[3], k)))
  {
    var t := Handle(cfg, ev, w);
    DecodedTraces(cfg, ev, w, name);
    if |t| == 2 {
      assert t == [t[0], t[1]];
      SelectTwo(t[0], t[1], k);
    } else if |t| == 3 {
      assert t == [t[0], t[1], t[2]];
      SelectThree(t[0], t[1], t[2], k);
    } else {
      assert t == [t[0], t[1], t[2], t[3]];
      SelectFour(t[0], t[1], t[2], t[3], k);
    }
  }

  /** The registry is asked at most once, with the raw name, and exactly when the storage read failed with code NoSuchKey. */
  lemma UpstreamOnlyOnNoSuchKey(cfg: Config, ev: Event, w: World)
    ensures |Select(Handle(cfg, ev, w), FetchKind)| <= 1
    ensures Select(Handle(cfg, ev, w), FetchKind) != [] <==>
      KeyOf(ev, w).Some? && w.storage(KeyOf(ev, w).value).StorageError? &&
      w.storage(KeyOf(ev, w).value).error.code == Some("NoSuchKey")
    ensures forall e :: e in Select(Handle(cfg, ev, w), FetchKind) ==> e == Fetch(cfg.registry, ev.name)
  {
    if w.decode(ev.name).Decoded? {
      DecodedTraces(cfg, ev, w, w.decode(ev.name).name);
      DecodedSelections(cfg, ev, w, w.decode(ev.name).name, FetchKind);
    }
  }

  /** At most one log entry is written, by the `package:get` logger for the caller, and one is written exactly when the answer's status is 500. */
  lemma LogsIffAnswer500(cfg: Config, ev: Event, w: World)
    ensures |Select(Handle(cfg, ev, w), LogKind)| <= 1
    ensures |Select(Handle(cfg, ev, w), LogKind)| == 1 <==>
      Answer(Handle(cfg, ev, w)).Some? && Answer(Handle(cfg, ev, w)).value.statusCode == Some(500)
    ensures forall e :: e in Select(Handle(cfg, ev, w), LogKind) ==> e.logger == "package:get" && e.user == UserOf(ev)
  {
    if w.decode(ev.name).Decoded? {
      DecodedTraces(cfg, ev, w, w.decode(ev.name).name);
      DecodedSelections(cfg, ev, w, w.decode(ev.name).name, LogKind);
    }
  }

  /** A name that decodes is answered by exactly one callback, with a null error, as the last effect; nothing is thrown. */
  lemma DecodedNameAlwaysAnswered(cfg: Config, ev: Event, w: World)
    requires w.decode(ev.name).Decoded?
    ensures Select(Handle(cfg, ev, w), ReplyKind) == [Handle(cfg, ev, w)[|Handle(cfg, ev, w)| - 1]]
    ensures Answer(Handle(cfg, ev, w)).Some?
    ensures Handle(cfg, ev, w)[|Handle(cfg, ev, w)| - 1].err == None
    ensures Select(Handle(cfg, ev, w), ThrowKind) == []
  {
    DecodedTraces(cfg, ev, w, w.decode(ev.name).name);
    DecodedSelections(cfg, ev, w, w.decode(ev.name).name, ReplyKind);
    DecodedSelections(cfg, ev, w, w.decode(ev.name).name, ThrowKind);
  }

  /** A cached object is answered with 200 and its attachments cleared; the registry and the logger are not used. */
  lemma CacheHitAnswersStripped(cfg: Config, ev: Event, w: World, name: string, doc: string, m: map<string, Json>)
    requires w.decode(ev.name) == Decoded(name)
    requires w.storage(name + "/index.json") == Object(doc)
    requires w.parse(doc) == Parsed(JObject(m))
    ensures Answer(Handle(cfg, ev, w)).Some?
    ensures Answer(Handle(cfg, ev, w)).value.statusCode == Some(200)
    ensures Stripped(m, Answer(Handle(cfg, ev, w)).value.body)
    ensures Select(Handle(cfg, ev, w), FetchKind) == [] && Select(Handle(cfg, ev, w), LogKind) == []
  {
  }

  /** A cached array is answered with 200 as it is: the attachments property set on it is not serialised. */
  lemma CachedArrayServedAsIs(cfg: Config, ev: Event, w: World, name: string, doc: string, items: seq<Json>)
    requires w.decode(ev.name) == Decoded(name)
    requires w.storage(name + "/index.json") == Object(doc)
    requires w.parse(doc) == Parsed(JArray(items))
    ensures Answer(Handle(cfg, ev, w)) == Some(Response(Some(200), JArray(items)))
  {
  }

  /**
    A cached document that does not parse, or parses to null or a primitive
    (on which the attachments assignment throws), is handled as a storage
    failure: one log entry, a 500 answer with the runtime error's message,
    and no request to the registry.
   */
  lemma UnusableCachedDocumentAnswers500(cfg: Config, ev: Event, w: World, name: string, doc: string)
    requires w.decode(ev.name) == Decoded(name)
    requires w.storage(name + "/index.json") == Object(doc)
    requires w.parse(doc).SyntaxError? || !(w.parse(doc).value.JObject? || w.parse(doc).value.JArray?)
    ensures var message := if w.parse(doc).SyntaxError? then w.parse(doc).message
                           else w.typeErrorMessage(w.parse(doc).value);
      && Answer(Handle(cfg, ev, w)) == Some(Response(Some(500), ErrorBody(message)))
      && Select(Handle(cfg, ev, w), LogKind) == [Log("package:get", UserOf(ev), JsError(None, None, message))]
    ensures Select(Handle(cfg, ev, w), FetchKind) == []
  {
    DecodedTraces(cfg, ev, w, name);
    DecodedSelections(cfg, ev, w, name, FetchKind);
    DecodedSelections(cfg, ev, w, name, LogKind);
  }

  /** A storage failure other than NoSuchKey is logged once and answered with 500 and its message; the registry is not asked. */
  lemma StorageFailureAnswers500(cfg: Config, ev: Event, w: World, name: string, e: JsError)
    requires w.decode(ev.name) == Decoded(name)
    requires w.storage(name + "/index.json") == StorageError(e)
    requires e.code != Some("NoSuchKey")
    ensures Answer(Handle(cfg, ev, w)) == Some(Response(Some(500), ErrorBody(e.message)))
    ensures Select(Handle(cfg, ev, w), LogKind) == [Log("package:get", UserOf(ev), e)]
    ensures Select(Handle(cfg, ev, w), FetchKind) == []
  {
    DecodedTraces(cfg, ev, w, name);
    DecodedSelections(cfg, ev, w, name, FetchKind);
    DecodedSelections(cfg, ev, w, name, LogKind);
  }

  /** On a missing key the registry's document is answered with 200 verbatim, attachments included, and nothing is logged. */
  lemma UpstreamPackageVerbatim(cfg: Config, ev: Event, w: World, name: string, e: JsError, data: Json)
    requires w.decode(ev.name) == Decoded(name)
    requires w.storage(name + "/index.json") == StorageError(e)
    requires e.code == Some("NoSuchKey")
    requires w.npm(cfg.registry, ev.name) == Package(data)
    ensures Answer(Handle(cfg, ev, w)) == Some(Response(Some(200), data))
    ensures Select(Handle(cfg, ev, w), FetchKind) == [Fetch(cfg.registry, ev.name)]
    ensures Select(Handle(cfg, ev, w), LogKind) == []
  {
    DecodedTraces(cfg, ev, w, name);
    DecodedSelections(cfg, ev, w, name, FetchKind);
    DecodedSelections(cfg, ev, w, name, LogKind);
  }

  /**
    On a missing key a registry failure is answered with the registry's own
    status and `{"error": message}`; it is logged, before the answer, exactly
    when that status is 500.
   */
  lemma UpstreamErrorPassedThrough(cfg: Config, ev: Event, w: World, name: string, e: JsError, ne: JsError)
    requires w.decode(ev.name) == Decoded(name)
    requires w.storage(name + "/index.json") == StorageError(e)
    requires e.code == Some("NoSuchKey")
    requires w.npm(cfg.registry, ev.name) == NpmError(ne)
    ensures Answer(Handle(cfg, ev, w)) == Some(Response(ne.status, ErrorBody(ne.message)))
    ensures Select(Handle(cfg, ev, w), LogKind) ==
      if ne.status == Some(500) then [Log("package:get", UserOf(ev), ne)] else []
    ensures ne.status == Some(500) ==> Handle(cfg, ev, w)[|Handle(cfg, ev, w)| - 2].Log?
  {
    DecodedTraces(cfg, ev, w, name);
    DecodedSelections(cfg, ev, w, name, LogKind);
  }
}
