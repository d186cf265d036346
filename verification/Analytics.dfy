/** The analytics sink's stable observation identity: what it distinguishes, and what it does not. */
module Analytics {
  import opened Wrappers
  import opened Database

  /** The digest is a parameter; collision freedom is assumed of it where it matters. */
  datatype Sink = Sink(enabled: bool, hash: string -> string)

  const SEPARATOR: char := '\U{001F}'

  /** Whole milliseconds since the epoch, from the days, seconds and microseconds of a time delta. */
  function EpochMs(t: Time): (ms: int)
    ensures ms == t / 1000
    ensures ms * 1000 <= t < ms * 1000 + 1000
  {
    var days := t / 86_400_000_000;
    var rest := t % 86_400_000_000;
    var seconds, micros := rest / 1_000_000, rest % 1_000_000;
    days * 86_400_000 + seconds * 1_000 + micros / 1_000
  }

  function Digit(n: nat): char
    requires n < 10
  {
    ['0', '1', '2', '3', '4', '5', '6', '7', '8', '9'][n]
  }

  function Digits(n: nat): string {
    if n < 10 then [Digit(n)] else Digits(n / 10) + [Digit(n % 10)]
  }

  function Decimal(n: int): string { if n < 0 then "-" + Digits(-n) else Digits(n) }

  function Material(k: ObservationKey): string {
    k.tenant + [SEPARATOR] + (k.source + [SEPARATOR] + (k.entity + [SEPARATOR] + Decimal(EpochMs(k.observedAt))))
  }

  function RowKey(tenant: string, row: AnalyticsRow): ObservationKey {
    ObservationKey(tenant, row.sourceId, row.entityId, row.observedAt)
  }

  function Identity(hash: string -> string, k: ObservationKey): string { hash(Material(k)) }

  /** The ids of the positioned rows, in order; rows without a position are skipped. */
  function Identities(hash: string -> string, tenant: string, rows: seq<AnalyticsRow>): seq<string> {
    if rows == [] then []
    else
      var row := rows[|rows| - 1];
      Identities(hash, tenant, rows[..|rows| - 1])
      + if row.position.Some? then [Identity(hash, RowKey(tenant, row))] else []
  }

  method WriteObservations(sink: Sink, rows: seq<AnalyticsRow>, tenant: string) returns (normalized: seq<string>)
    ensures normalized == if sink.enabled then Identities(sink.hash, tenant, rows) else []
  {
    normalized := [];
    if !sink.enabled || rows == [] {
      return;
    }
    for i := 0 to |rows|
      invariant normalized == Identities(sink.hash, tenant, rows[..i])
    {
      assert rows[..i + 1][..i] == rows[..i];
      if rows[i].position.Some? {
        normalized := normalized + [Identity(sink.hash, RowKey(tenant, rows[i]))];
      }
    }
    assert rows[..|rows|] == rows;
  }

  lemma {:induction false} IdentitiesMembers(hash: string -> string, tenant: string, rows: seq<AnalyticsRow>, id: string)
    ensures id in Identities(hash, tenant, rows) <==>
              exists i :: 0 <= i < |rows| && rows[i].position.Some? && id == Identity(hash, RowKey(tenant, rows[i]))
  {
    if rows == [] {
    } else {
      var init, last := rows[..|rows| - 1], rows[|rows| - 1];
      IdentitiesMembers(hash, tenant, init, id);
      assert rows == init + [last];
    }
  }

  // ---------------------------------------------------------------- what the identity distinguishes

  ghost predicate CollisionFree(hash: string -> string) {
    forall a, b :: hash(a) == hash(b) ==> a == b
  }

  predicate SeparatorFree(k: ObservationKey) {
    SEPARATOR !in k.tenant && SEPARATOR !in k.source && SEPARATOR !in k.entity
  }

  predicate SameMillisecond(a: ObservationKey, b: ObservationKey) {
    a.tenant == b.tenant && a.source == b.source && a.entity == b.entity && a.observedAt / 1000 == b.observedAt / 1000
  }

  lemma {:induction false} DigitsInjective(a: nat, b: nat)
    requires Digits(a) == Digits(b)
    ensures a == b
    decreases a
  {
    var s := Digits(a);
    assert s[|s| - 1] == Digit(a % 10) == Digit(b % 10);
    assert a % 10 == b % 10;
    if a >= 10 && b >= 10 {
      assert Digits(a / 10) == s[..|s| - 1] == Digits(b / 10);
      DigitsInjective(a / 10, b / 10);
    } else if a >= 10 {
      DigitsNonempty(a / 10);
    } else if b >= 10 {
      DigitsNonempty(b / 10);
    }
  }

  lemma DigitsNonempty(n: nat)
    ensures |Digits(n)| >= 1 && Digits(n)[0] in "0123456789"
  {
  }

  lemma DecimalInjective(a: int, b: int)
    requires Decimal(a) == Decimal(b)
    ensures a == b
  {
    if a < 0 && b < 0 {
      assert Digits(-a) == Decimal(a)[1..] == Digits(-b);
      DigitsInjective(-a, -b);
    } else if a < 0 {
      DigitsNonempty(b);
    } else if b < 0 {
      DigitsNonempty(a);
    } else {
      DigitsInjective(a, b);
    }
  }

  /** Text up to the first separator, and text after it, are determined by the joined text. */
  lemma SplitUnique(a: string, x: string, b: string, y: string)
    requires SEPARATOR !in a && SEPARATOR !in b
    requires a + [SEPARATOR] + x == b + [SEPARATOR] + y
    ensures a == b && x == y
  {
    var s, t := a + [SEPARATOR] + x, b + [SEPARATOR] + y;
    assert s[|a|] == SEPARATOR && forall j :: 0 <= j < |a| ==> s[j] == a[j];
    assert t[|b|] == SEPARATOR && forall j :: 0 <= j < |b| ==> t[j] == b[j];
    assert |a| == |b|;
    assert a == s[..|a|] && b == t[..|b|];
    assert x == s[|a| + 1..] && y == t[|b| + 1..];
  }

  /** Equal ids are exactly equal tenant, source, entity and floored millisecond, also before 1970. */
  lemma IdentityDistinguishes(hash: string -> string, a: ObservationKey, b: ObservationKey)
    requires CollisionFree(hash) && SeparatorFree(a) && SeparatorFree(b)
    ensures Identity(hash, a) == Identity(hash, b) <==> SameMillisecond(a, b)
  {
    if Identity(hash, a) == Identity(hash, b) {
      var da, db := Decimal(EpochMs(a.observedAt)), Decimal(EpochMs(b.observedAt));
      SplitUnique(a.tenant, a.source + [SEPARATOR] + (a.entity + [SEPARATOR] + da),
                  b.tenant, b.source + [SEPARATOR] + (b.entity + [SEPARATOR] + db));
      SplitUnique(a.source, a.entity + [SEPARATOR] + da, b.source, b.entity + [SEPARATOR] + db);
      SplitUnique(a.entity, da, b.entity, db);
      DecimalInjective(EpochMs(a.observedAt), EpochMs(b.observedAt));
    }
  }
}
