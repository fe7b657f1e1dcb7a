/**
 * The serialisation proxy for a game-engine version number: it captures the four
 * components of a `Version` and rebuilds an equal `Version` when read back.
 */
module VersionProxy {
  import opened Wrappers

  /** A Java `int`. */
  newtype Int32 = x: int | -0x8000_0000 <= x < 0x8000_0000

  /** An engine version `major.minor.point.micro`. */
  datatype Version = Version(major: Int32, minor: Int32, point: Int32, micro: Int32)

  /** The proxy's four final fields; a value type, so it cannot change once built. */
  datatype VersionProxy = VersionProxy(major: Int32, minor: Int32, point: Int32, micro: Int32)

  /** The constructor failed its `checkNotNull`. */
  datatype NullPointer = NullPointer

  /**
   * The proxy constructor: a null version is rejected; otherwise each of the four
   * components is copied into the field of the same name.
   */
  function NewProxy(version: Option<Version>): (r: Result<VersionProxy, NullPointer>)
    ensures r.Err? <==> version.None?
    ensures r.Ok? ==>
      r.value.major == version.value.major && r.value.minor == version.value.minor &&
      r.value.point == version.value.point && r.value.micro == version.value.micro
  {
    match version
    case None => Err(NullPointer)
    case Some(v) => Ok(VersionProxy(v.major, v.minor, v.point, v.micro))
  }

  /** `readResolve`: a new `Version` built from the proxy's four fields. */
  function ReadResolve(proxy: VersionProxy): (v: Version)
    ensures NewProxy(Some(v)) == Ok(proxy)
  {
    Version(proxy.major, proxy.minor, proxy.point, proxy.micro)
  }

  /** Writing a version through its proxy and reading it back yields the same version. */
  lemma RoundTrip(v: Version)
    ensures NewProxy(Some(v)).Ok? && ReadResolve(NewProxy(Some(v)).value) == v
  {
  }

  /** Two versions with equal proxies are equal: the proxy loses no component. */
  lemma ProxyIsInjective(v: Version, w: Version)
    requires NewProxy(Some(v)) == NewProxy(Some(w))
    ensures v == w
  {
    RoundTrip(v);
    RoundTrip(w);
  }
}
