/** The registry of backend implementations: records of (name, backend type, init,
    getCloudService), registered once per type and looked up by type. The package-level
    `backends.r` slice is the `backends` field of one `Registry` object; `logrus.Fatal`
    is an error result. `init` and `getCloudService` are opaque function values: `Svc`
    and `Cloud` stand for the whole (value, error) pair each of them returns. */
module Backend {
  import opened Optional

  datatype RegisterError =
    | NoName           // "backend: no name"
    | NoType           // "backend: no type"
    | TypeRegistered   // "backend: already registered"

  datatype RegisteredBackend<!Ctx, Svc, Cloud> = RegisteredBackend(
    name: string,
    backendType: string,
    init: Ctx -> Svc,
    getCloudService: () -> Cloud)

  /** A lookup's answer: what the matching backend's function returned, or
      "backend not found" for the requested type. */
  datatype Lookup<T> = Found(value: T) | NotFound(backendType: string)

  /** No two records share a backend type. */
  ghost predicate UniqueTypes<Ctx, Svc, Cloud>(r: seq<RegisteredBackend<Ctx, Svc, Cloud>>)
  {
    forall i, j :: 0 <= i < j < |r| ==> r[i].backendType != r[j].backendType
  }

  predicate HasType<Ctx, Svc, Cloud>(r: seq<RegisteredBackend<Ctx, Svc, Cloud>>, t: string)
  {
    exists i :: 0 <= i < |r| && r[i].backendType == t
  }

  /** Record k has type `t` and no record before it does. */
  predicate FirstOfType<Ctx, Svc, Cloud>(r: seq<RegisteredBackend<Ctx, Svc, Cloud>>, t: string, k: int)
  {
    0 <= k < |r| && r[k].backendType == t && forall j :: 0 <= j < k ==> r[j].backendType != t
  }

  /** The first record of type `t`, the one a scan from the front stops at. */
  function Find<Ctx, Svc, Cloud>(r: seq<RegisteredBackend<Ctx, Svc, Cloud>>, t: string)
    : (found: Option<RegisteredBackend<Ctx, Svc, Cloud>>)
    ensures found.None? <==> !HasType(r, t)
    ensures found.Some? ==> found.value.backendType == t && found.value in r
    ensures found.Some? ==> exists k :: FirstOfType(r, t, k) && r[k] == found.value
  {
    if r == [] then None
    else if r[0].backendType == t then Some(r[0])
    else
      var rest := Find(r[1..], t);
      assert rest.Some? ==> exists k :: FirstOfType(r, t, k) && r[k] == rest.value by {
        if rest.Some? {
          var k :| FirstOfType(r[1..], t, k) && r[1..][k] == rest.value;
          assert r[k + 1] == rest.value;
          forall j | 0 <= j < k + 1 ensures r[j].backendType != t {
            if j > 0 {
              assert r[j] == r[1..][j - 1];
            }
          }
          assert FirstOfType(r, t, k + 1);
        }
      }
      assert HasType(r, t) ==> HasType(r[1..], t) by {
        if HasType(r, t) {
          var i :| 0 <= i < |r| && r[i].backendType == t;
          assert r[1..][i - 1] == r[i];
        }
      }
      assert HasType(r[1..], t) ==> HasType(r, t) by {
        if HasType(r[1..], t) {
          var i :| 0 <= i < |r[1..]| && r[1..][i].backendType == t;
          assert r[i + 1] == r[1..][i];
        }
      }
      rest
  }

  /** With unique types, the record a lookup finds is the record of that type. */
  lemma {:induction false} FindUnique<Ctx, Svc, Cloud>(r: seq<RegisteredBackend<Ctx, Svc, Cloud>>, k: nat)
    requires UniqueTypes(r) && k < |r|
    ensures Find(r, r[k].backendType) == Some(r[k])
  {
    if k > 0 {
      assert r[0].backendType != r[k].backendType;
      assert r[1..][k - 1] == r[k];
      FindUnique(r[1..], k - 1);
    }
  }

  /** Appending a record leaves every earlier answer alone and makes the new type find it. */
  lemma {:induction false} FindAfterAppend<Ctx, Svc, Cloud>(
    r: seq<RegisteredBackend<Ctx, Svc, Cloud>>, b: RegisteredBackend<Ctx, Svc, Cloud>, t: string)
    requires !HasType(r, b.backendType)
    ensures Find(r + [b], t) == if t == b.backendType then Some(b) else Find(r, t)
  {
    if r == [] {
      assert r + [b] == [b];
    } else {
      assert (r + [b])[1..] == r[1..] + [b];
      if r[0].backendType != t {
        forall i | 0 <= i < |r[1..]| ensures r[1..][i].backendType != b.backendType {
          assert r[1..][i] == r[i + 1];
        }
        FindAfterAppend(r[1..], b, t);
      } else {
        assert t != b.backendType;
      }
    }
  }

  class Registry<Ctx, Svc, Cloud> {
    var backends: seq<RegisteredBackend<Ctx, Svc, Cloud>>

    /** Every record has a name and a type, and no type is registered twice. */
    ghost predicate Valid()
      reads this
    {
      && UniqueTypes(backends)
      && forall i :: 0 <= i < |backends| ==> backends[i].name != "" && backends[i].backendType != ""
    }

    constructor ()
      ensures Valid() && backends == []
    {
      backends := [];
    }

    /** Register: an empty name, an empty type or a type already present is refused and
        the registry is left as it was; otherwise one record is appended at the end. */
    method Register(name: string, backendType: string, init: Ctx -> Svc, getCloudService: () -> Cloud)
      returns (err: Option<RegisterError>)
      requires Valid()
      modifies this
      ensures Valid()
      ensures name == "" ==> err == Some(NoName)
      ensures name != "" && backendType == "" ==> err == Some(NoType)
      ensures name != "" && backendType != "" ==>
        (err == Some(TypeRegistered) <==> HasType(old(backends), backendType))
      ensures err.None? <==> name != "" && backendType != "" && !HasType(old(backends), backendType)
      ensures err.None? ==>
        backends == old(backends) + [RegisteredBackend(name, backendType, init, getCloudService)]
      ensures err.Some? ==> backends == old(backends)
    {
      if name == "" {
        return Some(NoName);
      }
      if backendType == "" {
        return Some(NoType);
      }
      for i := 0 to |backends|
        invariant forall j :: 0 <= j < i ==> backends[j].backendType != backendType
      {
        if backends[i].backendType == backendType {
          return Some(TypeRegistered);
        }
      }
      backends := backends + [RegisteredBackend(name, backendType, init, getCloudService)];
      err := None;
    }

    /** Get: the result of calling `init` on the record of that type, or "backend not
        found" when no record has it. */
    method Get(ctx: Ctx, backendType: string) returns (r: Lookup<Svc>)
      ensures r.NotFound? <==> !HasType(backends, backendType)
      ensures r.NotFound? ==> r.backendType == backendType
      ensures r.Found? ==> r == Found(Find(backends, backendType).value.init(ctx))
    {
      for i := 0 to |backends|
        invariant forall j :: 0 <= j < i ==> backends[j].backendType != backendType
        invariant Find(backends, backendType) == Find(backends[i..], backendType)
      {
        if backends[i].backendType == backendType {
          return Found(backends[i].init(ctx));
        }
        assert backends[i..][1..] == backends[i + 1..];
      }
      return NotFound(backendType);
    }

    /** GetCloudService: the result of calling `getCloudService` on the record of that
        type, or "backend not found" when no record has it. */
    method GetCloudService(backendType: string) returns (r: Lookup<Cloud>)
      ensures r.NotFound? <==> !HasType(backends, backendType)
      ensures r.NotFound? ==> r.backendType == backendType
      ensures r.Found? ==> r == Found(Find(backends, backendType).value.getCloudService())
    {
      for i := 0 to |backends|
        invariant forall j :: 0 <= j < i ==> backends[j].backendType != backendType
        invariant Find(backends, backendType) == Find(backends[i..], backendType)
      {
        if backends[i].backendType == backendType {
          return Found(backends[i].getCloudService());
        }
        assert backends[i..][1..] == backends[i + 1..];
      }
      return NotFound(backendType);
    }
  }

  /** In a valid registry, a lookup of a registered type answers with that record's own
      functions: the record at index k is the one Get and GetCloudService call. */
  lemma LookupFindsRegistered<Ctx, Svc, Cloud>(r: seq<RegisteredBackend<Ctx, Svc, Cloud>>, k: nat)
    requires UniqueTypes(r) && k < |r|
    ensures HasType(r, r[k].backendType)
    ensures Find(r, r[k].backendType).value.init == r[k].init
    ensures Find(r, r[k].backendType).value.getCloudService == r[k].getCloudService
  {
    FindUnique(r, k);
  }

  /** A successful Register makes its type resolve to the new record, and every other
      type to what it resolved to before: registering never changes an earlier answer. */
  lemma RegisterThenFind<Ctx, Svc, Cloud>(
    r: seq<RegisteredBackend<Ctx, Svc, Cloud>>, b: RegisteredBackend<Ctx, Svc, Cloud>, t: string)
    requires UniqueTypes(r) && !HasType(r, b.backendType)
    ensures UniqueTypes(r + [b])
    ensures Find(r + [b], b.backendType) == Some(b)
    ensures t != b.backendType ==> Find(r + [b], t) == Find(r, t)
  {
    FindAfterAppend(r, b, t);
    FindAfterAppend(r, b, b.backendType);
  }
}
