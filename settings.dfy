/** Construction-time options and the configuration the logger keeps after applying defaults. */
module Settings {
  import opened Wrappers

  const DEFAULT_BUFFER_SIZE := 10
  const DEFAULT_FLUSH_INTERVAL := 5000

  /** The options a caller passes to the constructor; every field but packageName may be omitted. */
  datatype Options = Options(
    packageName: string,
    password: Option<string>,
    isNewAccount: Option<bool>,
    tableName: Option<string>,
    bufferSize: Option<int>,
    flushInterval: Option<int>)

  /** What the logger stores: `password` as given, the other options with their defaults applied. */
  datatype Config = Config(
    packageName: string,
    password: Option<string>,
    isNewAccount: bool,
    bufferSize: int,
    flushInterval: int)

  /** JavaScript truthiness of an optional string: absent and the empty string are both falsy. */
  predicate Truthy(s: Option<string>) {
    s.Some? && s.value != ""
  }

  /** `v || d` on an optional number: an omitted value and 0 both give way to the default. */
  function OrDefault(v: Option<int>, d: int): (r: int)
    ensures v.Some? && v.value != 0 ==> r == v.value
    ensures v.None? || v.value == 0 ==> r == d
    ensures d != 0 ==> r != 0
  {
    if v.Some? && v.value != 0 then v.value else d
  }

  /** The constructor's field assignments. */
  function Resolve(o: Options): (c: Config)
    ensures c.packageName == o.packageName && c.password == o.password
    ensures c.isNewAccount <==> o.isNewAccount == Some(true)
    ensures c.bufferSize != 0 && c.flushInterval != 0
    ensures o.bufferSize.Some? && o.bufferSize.value != 0 ==> c.bufferSize == o.bufferSize.value
    ensures o.bufferSize == None || o.bufferSize == Some(0) ==> c.bufferSize == DEFAULT_BUFFER_SIZE
    ensures o.flushInterval.Some? && o.flushInterval.value != 0 ==> c.flushInterval == o.flushInterval.value
    ensures o.flushInterval == None || o.flushInterval == Some(0) ==> c.flushInterval == DEFAULT_FLUSH_INTERVAL
  {
    Config(
      o.packageName,
      o.password,
      o.isNewAccount == Some(true),
      OrDefault(o.bufferSize, DEFAULT_BUFFER_SIZE),
      OrDefault(o.flushInterval, DEFAULT_FLUSH_INTERVAL))
  }
}
