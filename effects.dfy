/**
  What the handler does to the world outside it, as an ordered trace of
  effects, and the values those effects carry.
 */
module Effects {
  import opened Wrappers
  import opened Json

  /** The caller identity taken from the authorizer context of the request. */
  datatype User = User(name: string, avatar: string)

  /**
    A thrown JavaScript error as far as the handler looks at it: its `code`
    and `status` properties (None when undefined) and its `message`.
   */
  datatype JsError = JsError(code: Option<string>, status: Option<int>, message: string)

  /** An error raised by the JavaScript runtime itself; it has neither code nor status. */
  function RuntimeError(message: string): JsError {
    JsError(None, None, message)
  }

  /** The second argument of `callback`; a statusCode of None is `undefined`. */
  datatype Response = Response(statusCode: Option<int>, body: Json)

  datatype Effect =
    | Read(key: string)                                  // storage.get(key)
    | Fetch(registry: string, name: string)              // npm.package(registry, name)
    | Log(logger: string, user: User, error: JsError)    // log.error(user, error) on the named logger
    | Reply(err: Option<JsError>, response: Response)    // callback(err, response)
    | Throw(error: JsError)                              // the handler's promise rejects

  datatype Kind = ReadKind | FetchKind | LogKind | ReplyKind | ThrowKind

  function KindOf(e: Effect): Kind {
    match e
    case Read(_) => ReadKind
    case Fetch(_, _) => FetchKind
    case Log(_, _, _) => LogKind
    case Reply(_, _) => ReplyKind
    case Throw(_) => ThrowKind
  }

  /** The effects of kind `k` in trace `t`, in the order they happened. */
  function Select(t: seq<Effect>, k: Kind): (r: seq<Effect>)
    ensures |r| <= |t|
    ensures forall i :: 0 <= i < |r| ==> KindOf(r[i]) == k
    ensures forall e :: e in r ==> e in t
  {
    if t == [] then []
    else (if KindOf(t[0]) == k then [t[0]] else []) + Select(t[1..], k)
  }

  /** Selecting from a trace run after another selects from each in turn. */
  lemma {:induction false} SelectAppend(a: seq<Effect>, b: seq<Effect>, k: Kind)
    ensures Select(a + b, k) == Select(a, k) + Select(b, k)
  {
    if a == [] {
      assert a + b == b;
    } else {
      assert (a + b)[1..] == a[1..] + b;
      SelectAppend(a[1..], b, k);
    }
  }

  /** Nothing of kind `k` is lost: every such effect of the trace is selected. */
  lemma {:induction false} SelectKeeps(t: seq<Effect>, k: Kind, e: Effect)
    requires e in t && KindOf(e) == k
    ensures e in Select(t, k)
  {
    if t[0] != e {
      SelectKeeps(t[1..], k, e);
    }
  }

  /** A trace with no effect of kind `k` selects nothing. */
  lemma {:induction false} SelectAbsent(t: seq<Effect>, k: Kind)
    requires forall e :: e in t ==> KindOf(e) != k
    ensures Select(t, k) == []
  {
    if t != [] {
      assert forall e :: e in t[1..] ==> e in t;
      SelectAbsent(t[1..], k);
    }
  }

  /** The effect `e` if it is of kind `k`, as a trace of at most one effect. */
  function Pick(e: Effect, k: Kind): seq<Effect> {
    if KindOf(e) == k then [e] else []
  }

  /** Selecting from a trace that starts with `e`. */
  lemma SelectCons(e: Effect, t: seq<Effect>, k: Kind)
    ensures Select([e] + t, k) == Pick(e, k) + Select(t, k)
  {
  }

  /** Selecting from traces of two, three and four effects, effect by effect. */
  lemma SelectTwo(a: Effect, b: Effect, k: Kind)
    ensures Select([a, b], k) == Pick(a, k) + Pick(b, k)
  {
  }

  lemma SelectThree(a: Effect, b: Effect, c: Effect, k: Kind)
    ensures Select([a, b, c], k) == Pick(a, k) + (Pick(b, k) + Pick(c, k))
  {
    assert [a, b, c] == [a] + [b, c];
    SelectCons(a, [b, c], k);
    SelectTwo(b, c, k);
  }

  lemma SelectFour(a: Effect, b: Effect, c: Effect, d: Effect, k: Kind)
    ensures Select([a, b, c, d], k) == Pick(a, k) + (Pick(b, k) + (Pick(c, k) + Pick(d, k)))
  {
    assert [a, b, c, d] == [a] + [b, c, d];
    SelectCons(a, [b, c, d], k);
    SelectThree(b, c, d, k);
  }
}
