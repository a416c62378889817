/** Routing of services to partition streams (producer.go, bootstrap/partitions.go). */
module Partition {
  import opened Options

  const FNV_OFFSET: bv32 := 2166136261
  const FNV_PRIME: bv32 := 16777619

  /** 32-bit FNV-1a, the hash of Go's `fnv.New32a`. */
  function Fnv32a(bytes: seq<bv8>): bv32
  {
    if bytes == [] then FNV_OFFSET
    else (Fnv32a(bytes[..|bytes| - 1]) ^ (bytes[|bytes| - 1] as bv32)) * FNV_PRIME
  }

  /** Published FNV-1a values, and the routes they give over 16 partitions: the empty string, "a" and "foobar". */
  lemma FnvVectors()
    ensures PartitionFor([], 16) == 5 && PartitionFor([0x61], 16) == 12
    ensures PartitionFor([0x66, 0x6F, 0x6F, 0x62, 0x61, 0x72], 16) == 8
    ensures Fnv32a([]) == 0x811C9DC5
    ensures Fnv32a([0x61]) == 0xE40C292C
    ensures Fnv32a([0x66, 0x6F, 0x6F, 0x62, 0x61, 0x72]) == 0xBF9CF968
  {
    var s: seq<bv8> := [0x66, 0x6F, 0x6F, 0x62, 0x61, 0x72];
    assert Fnv32a(s[..1]) == 0xE30C2799;
    assert Fnv32a(s[..2]) == 0x6222E842 by { assert s[..2][..1] == s[..1]; }
    assert Fnv32a(s[..3]) == 0xA9F37ED7 by { assert s[..3][..2] == s[..2]; }
    assert Fnv32a(s[..4]) == 0x3F5076EF by { assert s[..4][..3] == s[..3]; }
    assert Fnv32a(s[..5]) == 0x39AAA18A by { assert s[..5][..4] == s[..4]; }
    assert s[..6] == s && s[..6][..5] == s[..5];
  }

  /** `partitionFor`: on a 64-bit int the conversion of the unsigned sum is not negative. */
  function PartitionFor(routingKey: seq<bv8>, partitionCount: nat): (p: nat)
    requires 0 < partitionCount
    ensures p < partitionCount
  {
    (Fnv32a(routingKey) as nat) % partitionCount
  }

  /** The partition is what is left of the hash after taking away PartitionCount as often as it goes. */
  lemma PartitionIsResidue(routingKey: seq<bv8>, partitionCount: nat) returns (times: nat)
    requires 0 < partitionCount
    ensures Fnv32a(routingKey) as int == times * partitionCount + PartitionFor(routingKey, partitionCount)
  {
    hide Fnv32a;
    times := Quotient(Fnv32a(routingKey) as nat, partitionCount);
  }

  lemma Quotient(h: nat, n: nat) returns (times: nat)
    requires 0 < n
    ensures h == times * n + h % n
  {
    times := h / n;
  }

  // ---- Names ----

  /** `%d` of a number that is not negative. */
  function Decimal(n: nat): (s: string)
    ensures s != []
  {
    var digit := ('0' as int + n % 10) as char;
    if n < 10 then [digit] else Decimal(n / 10) + [digit]
  }

  function ParseDecimal(s: string): int
  {
    if s == [] then 0 else 10 * ParseDecimal(s[..|s| - 1]) + (s[|s| - 1] as int - '0' as int)
  }

  predicate IsDigit(ch: char)
  {
    '0' <= ch <= '9'
  }

  /** Digits without a leading zero, or the single digit zero. */
  predicate Canonical(s: string)
  {
    s != [] && (forall i :: 0 <= i < |s| ==> IsDigit(s[i])) && (s[0] == '0' ==> |s| == 1)
  }

  lemma {:induction false} DecimalCanonical(n: nat)
    ensures Canonical(Decimal(n)) && (0 < n ==> Decimal(n)[0] != '0')
  {
    if 10 <= n {
      DecimalCanonical(n / 10);
    }
  }

  lemma {:induction false} ParseNat(s: string)
    requires forall i :: 0 <= i < |s| ==> IsDigit(s[i])
    ensures 0 <= ParseDecimal(s)
  {
    if s != [] {
      ParseNat(s[..|s| - 1]);
    }
  }

  lemma {:induction false} ParsePositive(s: string)
    requires s != [] && s[0] != '0' && forall i :: 0 <= i < |s| ==> IsDigit(s[i])
    ensures 0 < ParseDecimal(s)
  {
    if |s| == 1 {
      assert s[..0] == [];
    } else {
      ParsePositive(s[..|s| - 1]);
    }
  }

  /** Every canonical numeral is the one its value is printed as. */
  lemma {:induction false} CanonicalRoundTrip(s: string)
    requires Canonical(s)
    ensures 0 <= ParseDecimal(s) && Decimal(ParseDecimal(s)) == s
  {
    ParseNat(s);
    var n := |s| - 1;
    var digit := s[n] as int - '0' as int;
    if n == 0 {
      assert s[..0] == [];
      assert s == [s[0]];
    } else {
      ParsePositive(s[..n]);
      CanonicalRoundTrip(s[..n]);
      var v := ParseDecimal(s);
      assert v == 10 * ParseDecimal(s[..n]) + digit && v / 10 == ParseDecimal(s[..n]) && v % 10 == digit;
      assert s == s[..n] + [s[n]];
    }
  }

  lemma {:induction false} DecimalRoundTrip(n: nat)
    ensures ParseDecimal(Decimal(n)) == n
  {
    var s := Decimal(n);
    if n < 10 {
      assert s[..|s| - 1] == [];
    } else {
      DecimalRoundTrip(n / 10);
      assert s[..|s| - 1] == Decimal(n / 10);
    }
  }

  /** PartitionStreamName, and the same format in streamNameFor and StreamLength. */
  function StreamName(base: string, partition: nat): string
  {
    base + ":partition:" + Decimal(partition)
  }

  function GroupName(base: string, partition: nat): string
  {
    base + "-" + Decimal(partition)
  }

  /** The name is that of some partition's stream. */
  predicate IsPartition(base: string, count: nat, name: string)
  {
    exists p: nat :: p < count && name == StreamName(base, p)
  }

  lemma SuffixInjective(prefix: string, i: nat, k: nat)
    requires prefix + Decimal(i) == prefix + Decimal(k)
    ensures i == k
  {
    var a, b := prefix + Decimal(i), prefix + Decimal(k);
    assert a[|prefix|..] == Decimal(i) && b[|prefix|..] == Decimal(k);
    DecimalRoundTrip(i);
    DecimalRoundTrip(k);
  }

  /** Distinct partitions have distinct streams and distinct groups. */
  lemma NamesDistinct(base: string, i: nat, k: nat)
    requires i != k
    ensures StreamName(base, i) != StreamName(base, k) && GroupName(base, i) != GroupName(base, k)
  {
    if StreamName(base, i) == StreamName(base, k) {
      SuffixInjective(base + ":partition:", i, k);
    }
    if GroupName(base, i) == GroupName(base, k) {
      SuffixInjective(base + "-", i, k);
    }
  }

  /** The names are the base, the separator, and the partition in canonical decimal. */
  lemma NamesExact(base: string, p: nat)
    ensures exists t: string ::
              && Canonical(t) && ParseDecimal(t) == p
              && StreamName(base, p) == base + ":partition:" + t && GroupName(base, p) == base + "-" + t
  {
    DecimalCanonical(p);
    DecimalRoundTrip(p);
  }

  /** The base name, `:partition:` and a canonical numeral below count. */
  predicate LooksLikePartition(base: string, count: nat, name: string)
  {
    var prefix := base + ":partition:";
    && prefix <= name
    && Canonical(name[|prefix|..])
    && ParseDecimal(name[|prefix|..]) < count
  }

  /** Exactly these names are apart from every partition's stream. The validator only rejects the empty name and
      the base name, so it accepts every colliding one. */
  lemma ApartIff(base: string, count: nat, name: string)
    ensures !IsPartition(base, count, name) <==> !LooksLikePartition(base, count, name)
    ensures IsPartition(base, count, name) ==> name != "" && name != base
  {
    var prefix := base + ":partition:";
    if IsPartition(base, count, name) {
      var p: nat :| p < count && name == StreamName(base, p);
      assert name == prefix + Decimal(p) && name[|prefix|..] == Decimal(p);
      DecimalCanonical(p);
      DecimalRoundTrip(p);
    }
    if LooksLikePartition(base, count, name) {
      var t := name[|prefix|..];
      CanonicalRoundTrip(t);
      assert name == prefix + t == StreamName(base, ParseDecimal(t));
    }
  }

  /** The partition whose stream has the name, if any. */
  function PartitionOf(base: string, count: nat, name: string): (r: Option<nat>)
    ensures r.Some? <==> IsPartition(base, count, name)
    ensures r.Some? ==> r.value < count && name == StreamName(base, r.value)
  {
    if count == 0 then None
    else if name == StreamName(base, count - 1) then Some(count - 1)
    else PartitionOf(base, count - 1, name)
  }

  /** How XGROUP CREATE MKSTREAM ends. */
  datatype Reply = Created | BusyGroup | Failed

  /** The streams and consumer groups that exist. */
  class Groups {
    var existing: set<(string, string)>

    constructor ()
      ensures existing == {}
    {
      existing := {};
    }

    /** SetupPartitions: replies[i] is the server's answer for partition i. */
    method SetupPartitions(base: string, group: string, count: nat, replies: seq<Reply>) returns (ok: bool)
      requires |replies| == count
      requires forall i :: 0 <= i < count && replies[i] == BusyGroup ==>
                 (StreamName(base, i), GroupName(group, i)) in existing
      modifies this
      ensures ok <==> Failed !in replies
      ensures old(existing) <= existing
      ensures ok ==> existing == old(existing) + set i | 0 <= i < count :: (StreamName(base, i), GroupName(group, i))
      // A failure is the first one, and the groups before it have been created.
      ensures !ok ==> exists n :: 0 <= n < count && replies[n] == Failed && Failed !in replies[..n]
                        && existing == old(existing) + set i | 0 <= i < n :: (StreamName(base, i), GroupName(group, i))
      // What routing asks for has been created.
      ensures ok && 0 < count ==> forall key: seq<bv8> ::
                var p := PartitionFor(key, count); (StreamName(base, p), GroupName(group, p)) in existing
    {
      for i := 0 to count
        invariant Failed !in replies[..i]
        invariant existing == old(existing) + set k | 0 <= k < i :: (StreamName(base, k), GroupName(group, k))
      {
        if replies[i] == Failed {
          return false;
        }
        assert replies[..i + 1] == replies[..i] + [replies[i]];
        existing := existing + {(StreamName(base, i), GroupName(group, i))};
      }
      assert replies[..count] == replies;
      return true;
    }
  }
}
