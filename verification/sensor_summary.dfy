/** `SensorSummary`: the REST API's description of one sensor, with its links. */
module SensorSummaries {

  /** A Java reference that may be null. */
  datatype Nullable<+T> = Null | Ref(value: T)

  /** A link map: link name to URI, URIs kept as their text. */
  type Links = map<string, string>

  datatype SensorSummary = SensorSummary(
    name: Nullable<string>,
    typeName: Nullable<string>,
    description: Nullable<string>,
    links: Nullable<Links>)

  /** The parts of a sensor the summary reads. */
  datatype Sensor = Sensor(name: Nullable<string>, typeName: Nullable<string>, description: Nullable<string>)

  const APPLICATIONS_PATH: string := "/v1/applications/"
  const ENTITIES_PATH: string := "/entities/"
  const SENSORS_PATH: string := "/sensors/"

  /** A string as Java's `+` renders it: null becomes `"null"`. */
  function Render(s: Nullable<string>): string {
    match s
    case Null => "null"
    case Ref(v) => v
  }

  /** The JSON constructor. The link map is copied; as a value, the copy is the map. */
  function FromJson(name: Nullable<string>, typeName: Nullable<string>, description: Nullable<string>,
                    links: Nullable<Links>): (s: SensorSummary)
    ensures s.name == name && s.typeName == typeName && s.description == description
    ensures s.links.Null? <==> links.Null?
    ensures s.links.Ref? ==> s.links.value == links.value
  {
    SensorSummary(name, typeName, description, if links.Ref? then Ref(links.value) else Null)
  }

  function ApplicationUri(appName: Nullable<string>): string {
    APPLICATIONS_PATH + Render(appName)
  }

  function EntityUri(appName: Nullable<string>, entityId: Nullable<string>): string {
    ApplicationUri(appName) + ENTITIES_PATH + Render(entityId)
  }

  /** The constructor for a sensor of an entity of an application: the sensor's own
      fields, and links to the sensor (`self`), its application and its entity. */
  function ForEntity(appName: Nullable<string>, entityId: Nullable<string>, sensor: Sensor): (s: SensorSummary)
    ensures s.name == sensor.name && s.typeName == sensor.typeName && s.description == sensor.description
    ensures s.links.Ref? && s.links.value.Keys == {"self", "application", "entity"}
  {
    var entityUri := EntityUri(appName, entityId);
    SensorSummary(sensor.name, sensor.typeName, sensor.description,
      Ref(map["self" := entityUri + SENSORS_PATH + Render(sensor.name),
              "application" := ApplicationUri(appName),
              "entity" := entityUri]))
  }

  /** The links nest: the application link starts the entity link, which starts the
      self link; and what follows is the entity id and the sensor name. */
  lemma LinksNest(appName: Nullable<string>, entityId: Nullable<string>, sensor: Sensor)
    ensures var links := ForEntity(appName, entityId, sensor).links.value;
      && links["application"] == APPLICATIONS_PATH + Render(appName)
      && links["entity"] == links["application"] + ENTITIES_PATH + Render(entityId)
      && links["self"] == links["entity"] + SENSORS_PATH + Render(sensor.name)
      && links["application"] <= links["entity"] <= links["self"]
  {
  }

  /** Within one entity, the self link tells the sensor: different sensor names give
      different self links. */
  lemma SelfLinkIdentifiesSensor(appName: Nullable<string>, entityId: Nullable<string>, s1: Sensor, s2: Sensor)
    requires ForEntity(appName, entityId, s1).links.value["self"] == ForEntity(appName, entityId, s2).links.value["self"]
    ensures Render(s1.name) == Render(s2.name)
  {
    var prefix := EntityUri(appName, entityId) + SENSORS_PATH;
    var self1 := ForEntity(appName, entityId, s1).links.value["self"];
    var self2 := ForEntity(appName, entityId, s2).links.value["self"];
    assert self1 == prefix + Render(s1.name);
    assert self2 == prefix + Render(s2.name);
    assert self1[|prefix|..] == Render(s1.name);
    assert self2[|prefix|..] == Render(s2.name);
  }

  /** `forCatalog`: the sensor's fields and no links. */
  function ForCatalog(sensor: Sensor): (s: SensorSummary)
    ensures s.links.Null?
    ensures s.name == sensor.name && s.typeName == sensor.typeName && s.description == sensor.description
  {
    FromJson(sensor.name, sensor.typeName, sensor.description, Null)
  }

  /** The null-safe comparison `equals` applies to each field. */
  function NullSafeEquals<T(==)>(a: Nullable<T>, b: Nullable<T>): bool {
    match a
    case Null => b.Null?
    case Ref(x) => b.Ref? && x == b.value
  }

  /** `equals`: false for null, else field by field (description, links, name, type). */
  function Equals(s: SensorSummary, o: Nullable<SensorSummary>): (r: bool)
    ensures r <==> o == Ref(s)
  {
    match o
    case Null => false
    case Ref(that) =>
      && NullSafeEquals(s.description, that.description)
      && NullSafeEquals(s.links, that.links)
      && NullSafeEquals(s.name, that.name)
      && NullSafeEquals(s.typeName, that.typeName)
  }

  /** `equals` is an equivalence on summaries. */
  lemma EqualsIsEquivalence(a: SensorSummary, b: SensorSummary, c: SensorSummary)
    ensures Equals(a, Ref(a))
    ensures Equals(a, Ref(b)) <==> Equals(b, Ref(a))
    ensures Equals(a, Ref(b)) && Equals(b, Ref(c)) ==> Equals(a, Ref(c))
  {
  }

  /** A catalog summary never equals an entity summary of the same sensor: only the
      latter has links. */
  lemma CatalogSummaryHasNoLinks(appName: Nullable<string>, entityId: Nullable<string>, sensor: Sensor)
    ensures !Equals(ForCatalog(sensor), Ref(ForEntity(appName, entityId, sensor)))
  {
  }

  /** Java `int` values. */
  type Int32 = x: int | -0x8000_0000 <= x < 0x8000_0000

  const TWO_TO_THE_32: int := 0x1_0000_0000

  /** Two's-complement wrap-around of an exact result into an `int`. */
  function Wrap32(x: int): Int32 {
    (x + 0x8000_0000) % TWO_TO_THE_32 - 0x8000_0000
  }

  /** Values that differ by a multiple of 2^32 wrap to the same `int`. */
  lemma WrapModulo(x: int, k: int)
    ensures Wrap32(x + k * TWO_TO_THE_32) == Wrap32(x)
  {
    var a := x + 0x8000_0000;
    var b := a + k * TWO_TO_THE_32;
    assert b == TWO_TO_THE_32 * (a / TWO_TO_THE_32 + k) + a % TWO_TO_THE_32;
    assert b % TWO_TO_THE_32 == a % TWO_TO_THE_32;
  }

  /** Wrapping an intermediate result of `31 * h + f` changes nothing in the end. */
  lemma WrapStep(x: int, y: int)
    ensures Wrap32(31 * Wrap32(x) + y) == Wrap32(31 * x + y)
  {
    var q := (x + 0x8000_0000) / TWO_TO_THE_32;
    assert Wrap32(x) == x - q * TWO_TO_THE_32;
    WrapModulo(31 * x + y, -31 * q);
  }

  /** A field's hash: the given hash of its value, 0 for null. */
  function FieldHash<T>(v: Nullable<T>, hash: T -> Int32): Int32 {
    match v
    case Null => 0
    case Ref(x) => hash(x)
  }

  /** `hashCode`, computed in `int` arithmetic as the source does; `stringHash` and
      `linksHash` are `String.hashCode` and the link map's `hashCode`. */
  function HashCode(s: SensorSummary, stringHash: string -> Int32, linksHash: Links -> Int32): (r: Int32)
    ensures r == Wrap32(29791 * FieldHash(s.name, stringHash) + 961 * FieldHash(s.typeName, stringHash)
                        + 31 * FieldHash(s.description, stringHash) + FieldHash(s.links, linksHash))
  {
    var h0 := FieldHash(s.name, stringHash);
    var h1 := Wrap32(31 * h0 + FieldHash(s.typeName, stringHash));
    var h2 := Wrap32(31 * h1 + FieldHash(s.description, stringHash));
    var h3 := Wrap32(31 * h2 + FieldHash(s.links, linksHash));
    WrapStep(31 * h0 + FieldHash(s.typeName, stringHash), FieldHash(s.description, stringHash));
    WrapStep(961 * h0 + 31 * FieldHash(s.typeName, stringHash) + FieldHash(s.description, stringHash),
             FieldHash(s.links, linksHash));
    h3
  }

  /** Equal summaries have equal hashes. */
  lemma EqualSummariesHashEqually(a: SensorSummary, b: SensorSummary,
                                  stringHash: string -> Int32, linksHash: Links -> Int32)
    requires Equals(a, Ref(b))
    ensures HashCode(a, stringHash, linksHash) == HashCode(b, stringHash, linksHash)
  {
  }
}
