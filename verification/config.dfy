/** The configuration the module reads: PHP values from `settings.php` and
    from the `mjml` container parameter, and the `??` / `isset` semantics the
    source uses to read nested keys from them. */
module Config {
  import opened Wrappers

  /** A PHP value as it appears in a settings array or a container parameter.
      Arrays are keyed by strings; every key the module reads is a string. */
  datatype Value =
    | Null
    | Bool(b: bool)
    | Int(i: int)
    | Str(s: string)
    | Array(entries: map<string, Value>)

  /** `$v[k1][k2]...[kn]` read under `isset` or `??`: None when a key is
      missing, when an intermediate value is not an array, or when the value
      found is null. A null therefore counts as absent. */
  function Lookup(v: Value, path: seq<string>): (r: Option<Value>)
    ensures r.Some? ==> r.value != Null
    ensures path == [] ==> (r.Some? <==> v != Null)
    ensures path != [] && !v.Array? ==> r.None?
    decreases |path|
  {
    if path == [] then
      if v.Null? then None else Some(v)
    else
      match v
      case Array(m) =>
        if path[0] in m then Lookup(m[path[0]], path[1..]) else None
      case _ => None
  }

  /** Reading a longer path is reading its prefix and then the rest from the
      value found there: `$v[p][q]` is `($v[p])[q]` under `isset`. */
  lemma {:induction false} LookupCompose(v: Value, p: seq<string>, q: seq<string>)
    ensures Lookup(v, p + q) ==
              match Lookup(v, p)
              case Some(w) => Lookup(w, q)
              case None => None
    decreases |p|
  {
    if p == [] {
      assert p + q == q;
      if v.Null? {
        if q != [] {
          assert Lookup(v, q) == None;
        }
      }
    } else {
      assert (p + q)[0] == p[0];
      assert (p + q)[1..] == p[1..] + q;
      match v
      case Array(m) =>
        if p[0] in m {
          LookupCompose(m[p[0]], p[1..], q);
        }
      case _ =>
    }
  }

  /** One step of a path: `isset($v[k])` holds exactly when `$v` is an array
      with key `k` whose value is not null. */
  lemma LookupStep(v: Value, k: string)
    ensures Lookup(v, [k]).Some? <==> v.Array? && k in v.entries && v.entries[k] != Null
    ensures Lookup(v, [k]).Some? ==> Lookup(v, [k]).value == v.entries[k]
  {
  }

  /** `layers[0][path] ?? layers[1][path] ?? ... ?? default`: the value of the
      first layer that defines `path` with a non-null value, else `default`. */
  function Coalesce(layers: seq<Value>, path: seq<string>, default: Value): (r: Value)
    ensures (forall i :: 0 <= i < |layers| ==> Lookup(layers[i], path).None?) ==> r == default
    ensures forall i ::
              0 <= i < |layers| && Lookup(layers[i], path).Some? &&
              (forall j :: 0 <= j < i ==> Lookup(layers[j], path).None?)
              ==> r == Lookup(layers[i], path).value
    decreases |layers|
  {
    if |layers| == 0 then default
    else
      match Lookup(layers[0], path)
      case Some(v) => v
      case None => Coalesce(layers[1..], path, default)
  }

  /** The site settings (`$settings` in settings.php), by top-level name. */
  type Settings = map<string, Value>

  /** The container parameters, by name. */
  type Parameters = map<string, Value>

  /** `Settings::get($name, $default)`: the stored value unless it is missing
      or null, in which case the default. */
  function SettingsGet(settings: Settings, name: string, default: Value): (r: Value)
    ensures r == Coalesce([Array(settings)], [name], default)
  {
    LookupStep(Array(settings), name);
    assert [Array(settings)][0] == Array(settings);
    if name in settings && settings[name] != Null then settings[name] else default
  }

  /** `$container->getParameter('mjml')`, with the InvalidArgumentException
      for a missing parameter caught and replaced by `[]`. */
  function MjmlConfiguration(params: Parameters): (r: Value)
    ensures "mjml" in params ==> r == params["mjml"]
    ensures "mjml" !in params ==> forall path :: path != [] ==> Lookup(r, path).None?
  {
    if "mjml" in params then params["mjml"] else Array(map[])
  }
}
