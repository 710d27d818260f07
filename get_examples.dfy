/**
  The handler's test scenarios, worked out on the model: the package
  fixture, the request and the environment of the tests, and one world per
  scenario.
 */
module GetExamples {
  import opened Wrappers
  import opened Json
  import opened Effects
  import opened Adapters
  import opened Get

  /** The fixture package document at `version`, with one inline tarball or with an empty attachments object. */
  function Fixture(version: string, withAttachments: bool): Json {
    var pkg := JString("foo-bar-package");
    var tarball := "foo-bar-package-" + version + ".tgz";
    JObject(map[
      "_id" := pkg,
      "name" := pkg,
      "dist-tags" := JObject(map["latest" := JString(version)]),
      "versions" := JObject(map[version := JObject(map[
        "name" := pkg,
        "version" := JString(version),
        "dist" := JObject(map["tarball" := JString("https://example.com/registry/foo-bar-package/-/" + tarball)])])]),
      Attachments :=
        if withAttachments then JObject(map[tarball := JObject(map["data" := JString("foo-package-data")])])
        else EmptyObject])
  }

  const Registry: string := "https://example.com"
  const TestConfig: Config := Config(Registry)
  const TestEvent: Event := Event("foo", "https://example.com", "foo-bar-package")
  const TestUser: User := User("foo", "https://example.com")

  /** A world in which names decode to themselves and storage answers every key with `stored`. */
  function TestWorld(stored: Stored, fetched: Fetched): World {
    World(
      s => Decoded(s),
      key => stored,
      doc => Parsed(Fixture("1.0.0", true)),
      (registry, name) => fetched,
      v => "TypeError")
  }

  const NotFound: JsError := JsError(Some("NoSuchKey"), None, "No such key.")
  const NpmFailure: JsError := JsError(None, Some(500), "Npm error.")

  /** The package is in the private registry: it is read from its index key and served without attachments. */
  lemma CachedFixtureServedWithoutAttachments(fetched: Fetched)
    ensures Handle(TestConfig, TestEvent, TestWorld(Object("cached"), fetched)) ==
      [Read("foo-bar-package/index.json"), Reply(None, Response(Some(200), Fixture("1.0.0", false)))]
  {
    var w := TestWorld(Object("cached"), fetched);
    assert w.decode(TestEvent.name) == Decoded("foo-bar-package");
    assert "foo-bar-package" + IndexSuffix == "foo-bar-package/index.json";
    var stored := Fixture("1.0.0", true).fields;
    assert stored[Attachments := EmptyObject] == Fixture("1.0.0", false).fields;
  }

  /** The package is not in the private registry: npm is asked with the registry and the raw name, and its document is served. */
  lemma MissingFixtureFetchedFromNpm()
    ensures Handle(TestConfig, TestEvent, TestWorld(StorageError(NotFound), Package(Fixture("1.0.0", false)))) ==
      [Read("foo-bar-package/index.json"),
       Fetch("https://example.com", "foo-bar-package"),
       Reply(None, Response(Some(200), Fixture("1.0.0", false)))]
  {
    var w := TestWorld(StorageError(NotFound), Package(Fixture("1.0.0", false)));
    assert w.decode(TestEvent.name) == Decoded("foo-bar-package");
    assert "foo-bar-package" + IndexSuffix == "foo-bar-package/index.json";
  }

  /** npm fails with status 500: the failure is logged for the caller and answered with `{"error":"Npm error."}`. */
  lemma NpmFailureLoggedAndAnswered()
    ensures Handle(TestConfig, TestEvent, TestWorld(StorageError(NotFound), NpmError(NpmFailure))) ==
      [Read("foo-bar-package/index.json"),
       Fetch("https://example.com", "foo-bar-package"),
       Log("package:get", TestUser, NpmFailure),
       Reply(None, Response(Some(500), ErrorBody("Npm error.")))]
  {
    var w := TestWorld(StorageError(NotFound), NpmError(NpmFailure));
    assert w.decode(TestEvent.name) == Decoded("foo-bar-package");
    assert "foo-bar-package" + IndexSuffix == "foo-bar-package/index.json";
  }

  /** Storage fails without a code: the failure is logged and answered with `{"error":"Storage error."}`; npm is not asked. */
  lemma StorageFailureLoggedAndAnswered(fetched: Fetched)
    ensures Handle(TestConfig, TestEvent, TestWorld(StorageError(JsError(None, None, "Storage error.")), fetched)) ==
      [Read("foo-bar-package/index.json"),
       Log("package:get", TestUser, JsError(None, None, "Storage error.")),
       Reply(None, Response(Some(500), ErrorBody("Storage error.")))]
  {
    var w := TestWorld(StorageError(JsError(None, None, "Storage error.")), fetched);
    assert w.decode(TestEvent.name) == Decoded("foo-bar-package");
    assert "foo-bar-package" + IndexSuffix == "foo-bar-package/index.json";
  }

  /** A scoped name: storage is read under the decoded name, while npm receives the name still encoded. */
  lemma ScopedNameReadDecodedFetchedRaw()
    ensures var w := TestWorld(StorageError(NotFound), Package(JNull)).(
      decode := s => if s == "@scope%2Fpkg" then Decoded("@scope/pkg") else Decoded(s));
      Handle(TestConfig, Event("foo", "https://example.com", "@scope%2Fpkg"), w)[..2] ==
        [Read("@scope/pkg/index.json"), Fetch("https://example.com", "@scope%2Fpkg")]
  {
    var w := TestWorld(StorageError(NotFound), Package(JNull)).(
      decode := s => if s == "@scope%2Fpkg" then Decoded("@scope/pkg") else Decoded(s));
    assert w.decode("@scope%2Fpkg") == Decoded("@scope/pkg");
    assert "@scope/pkg" + IndexSuffix == "@scope/pkg/index.json";
  }
}
