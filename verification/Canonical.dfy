/** The bytes of the canonical vector: what stands where, and why no other bytes
    would do.
 */
module CanonicalVectors {
  import opened Arithmetic
  import opened Base
  import opened KeyOrder
  import opened Ledgers
  import opened StateRoots

  // --- Numbers and keys ---

  /** Byte i of a little-endian number is its base-256 digit i. */
  lemma {:induction false} LittleEndianAt(n: nat, width: nat, i: nat)
    requires i < width
    ensures LittleEndian(n, width)[i] == n / Limit(i) % 256
  {
    if i > 0 {
      LittleEndianAt(n / 256, width - 1, i - 1);
      DivTwice(n, 256, Limit(i - 1));
    }
  }

  lemma {:induction false} FromLittleEndianRoundTrip(bytes: seq<byte>)
    ensures LittleEndian(FromLittleEndian(bytes), |bytes|) == bytes
    ensures FromLittleEndian(bytes) < Limit(|bytes|)
  {
    if |bytes| > 0 {
      FromLittleEndianRoundTrip(bytes[1..]);
      LowByte(bytes[0], FromLittleEndian(bytes[1..]), Limit(|bytes| - 1));
      assert bytes == [bytes[0]] + bytes[1..];
    }
  }

  lemma LowByte(low: byte, high: nat, limit: nat)
    requires high < limit
    ensures (low + 256 * high) % 256 == low && (low + 256 * high) / 256 == high && low + 256 * high < 256 * limit
  {
  }

  /** Byte i of a decoded key is its i-th pair of hex digits. */
  lemma {:induction false} HexDecodeAt(s: string, i: nat)
    requires |s| % 2 == 0 && IsLowerHex(s) && i < |s| / 2
    ensures HexDecode(s)[i] == 16 * HexValue(s[2 * i]) + HexValue(s[2 * i + 1])
    ensures "0123456789abcdef"[HexValue(s[2 * i])] == s[2 * i]
    decreases i
  {
    if i > 0 {
      HexDecodeAt(s[2..], i - 1);
    }
  }

  lemma {:induction false} HexEncodeRoundTrip(bytes: seq<byte>)
    ensures |HexEncode(bytes)| == 2 * |bytes| && IsLowerHex(HexEncode(bytes))
    ensures HexDecode(HexEncode(bytes)) == bytes
  {
    if |bytes| > 0 {
      var s, rest := HexEncode(bytes), HexEncode(bytes[1..]);
      HexEncodeRoundTrip(bytes[1..]);
      forall i | 0 <= i < |s|
        ensures IsLowerHexChar(s[i])
      {
        assert i >= 2 ==> s[i] == rest[i - 2];
      }
      assert s[2..] == rest;
    }
  }

  // --- Reading keys back ---

  /** The keys of up to n consecutive entries, in the order they stand in. */
  function ReadKeys(v: seq<byte>, n: nat, width: nat): seq<string> {
    if n == 0 || |v| < 32 + width then [] else [ReadKey(v[..32])] + ReadKeys(v[32 + width..], n - 1, width)
  }

  ghost predicate Ascends(keys: seq<string>) {
    forall i, j | 0 <= i < j < |keys| :: Less(keys[i], keys[j])
  }

  lemma {:induction false} EntriesKeys(keys: seq<string>, m: map<Address, nat>, width: nat, rest: seq<byte>)
    requires forall k | k in keys :: k in m && IsAccount(k)
    ensures Entries(keys, m, width).Success?
    ensures ReadKeys(Entries(keys, m, width).value + rest, |keys|, width) == keys
    decreases |keys|
  {
    hide Entry, ReadKey, KeyError, IsAccount;
    if |keys| > 0 {
      var entry, others := Entry(keys[0], m[keys[0]], width), Entries(keys[1..], m, width);
      EntriesFront(keys, m, width);
      EntriesKeys(keys[1..], m, width, rest);
      EntryKey(keys[0], m[keys[0]], width, others.value + rest);
      assert Entries(keys, m, width).value + rest == entry + (others.value + rest);
    }
  }

  lemma {:induction false} EntriesLength(keys: seq<string>, m: map<Address, nat>, width: nat)
    requires forall k | k in keys :: k in m && IsAccount(k)
    ensures Entries(keys, m, width).Success? && |Entries(keys, m, width).value| == |keys| * (32 + width)
  {
    hide KeyError, IsAccount, HexDecode, LittleEndian;
    if |keys| > 0 {
      EntriesLength(keys[..|keys| - 1], m, width);
      assert |keys| * (32 + width) == (|keys| - 1) * (32 + width) + (32 + width);
    }
  }

  lemma EntryKey(key: string, value: nat, width: nat, rest: seq<byte>)
    requires IsAccount(key)
    ensures var v := Entry(key, value, width) + rest;
            |v| >= 32 + width && ReadKey(v[..32]) == key && v[32 + width..] == rest
  {
    HexRoundTrip(key);
    var v := Entry(key, value, width) + rest;
    assert v[..32][..32] == HexDecode(key);
  }

  /** The count at the head of a section. */
  function CountAt(v: seq<byte>): nat
    requires |v| >= 8
  {
    FromLittleEndian(v[..8])
  }

  ghost predicate SectionAscends(v: seq<byte>, width: nat) {
    |v| >= 8 && Ascends(ReadKeys(v[8..], CountAt(v), width))
  }

  /** On well-formed keys a section counts the non-zero entries, and the keys read
      back from one entry after the other ascend strictly. */
  lemma SectionKeys(m: map<Address, nat>, width: nat, rest: seq<byte>)
    requires (forall k | k in m :: IsAccount(k)) && |NonZero(m)| < U64_LIMIT
    ensures Section(m, width).Success?
    ensures var v := Section(m, width).value;
            && |v| == 8 + |NonZero(m)| * (32 + width) && CountAt(v + rest) == |NonZero(m)|
            && ReadKeys((v + rest)[8..], |NonZero(m)|, width) == SortedKeys(NonZero(m).Keys)
            && SectionAscends(v + rest, width)
  {
    hide NonZero, Entries, ReadKeys, LittleEndian, FromLittleEndian, IsAccount, SortedKeys;
    var nz := NonZero(m);
    var keys := SortedKeys(nz.Keys);
    EntriesKeys(keys, nz, width, rest);
    EntriesLength(keys, nz, width);
    CountRoundTrip(|keys|);
    SortedKeysAscend(nz.Keys);
    var count, body := LittleEndian(|keys|, 8), Entries(keys, nz, width).value;
    var v := Section(m, width).value;
    assert v + rest == count + (body + rest);
    SplitAt(count, body + rest, v + rest);
  }

  // --- Only one way to write it ---

  /** What an ascending list of entries parses from is written from what it parses
      to. */
  lemma {:induction false} ParsedEntries(v: seq<byte>, n: nat, width: nat)
    requires ParseEntries(v, n, width).Some? && Ascends(ReadKeys(v, n, width))
    ensures var p, keys := ParseEntries(v, n, width).value, ReadKeys(v, n, width);
            && |keys| == n && (forall k :: k in keys <==> k in p.m) && AllAccounts(keys)
            && Entries(keys, p.m, width).Success? && v == Entries(keys, p.m, width).value + p.rest
    decreases n
  {
    hide Entry, ReadKey, ReadValue, Entries, IsAccount, Less;
    if n > 0 {
      var entry, tail := v[..32 + width], v[32 + width..];
      var keys := ReadKeys(v, n, width);
      assert keys[1..] == ReadKeys(tail, n - 1, width);
      assert Ascends(keys[1..]);
      ParsedEntries(tail, n - 1, width);
      var q := ParseEntries(tail, n - 1, width).value;
      EntryWritten(entry, width);
      ReadFirst(v, width);
      AscendsHead(keys);
      EntriesPrepend(keys[1..], q.m, keys[0], ReadValue(entry), width);
      assert keys == [keys[0]] + keys[1..];
      assert v == entry + (Entries(keys[1..], q.m, width).value + q.rest);
    } else {
      NoEntries(width);
    }
  }

  lemma NoEntries(width: nat)
    ensures Entries([], map[], width) == Success([]) && AllAccounts([])
  {
  }

  lemma ReadFirst(v: seq<byte>, width: nat)
    requires |v| >= 32 + width
    ensures ReadKey(v[..32 + width]) == ReadKey(v[..32])
  {
    assert v[..32 + width][..32] == v[..32][..32];
  }

  lemma EntriesPrepend(keys: seq<string>, m: map<Address, nat>, key: string, value: nat, width: nat)
    requires AllAccounts(keys) && (forall k :: k in keys <==> k in m) && IsAccount(key) && key !in keys
    requires Entries(keys, m, width).Success?
    ensures var more, all := m[key := value], [key] + keys;
            && (forall k :: k in all <==> k in more) && AllAccounts(all)
            && Entries(all, more, width) == Success(Entry(key, value, width) + Entries(keys, m, width).value)
  {
    hide Entry, Entries, IsAccount;
    var more, all := m[key := value], [key] + keys;
    assert all[1..] == keys;
    EntriesAgree(keys, m, more, width);
    EntriesFront(all, more, width);
  }

  lemma AscendsHead(keys: seq<string>)
    requires |keys| > 0 && Ascends(keys)
    ensures keys[0] !in keys[1..]
  {
    hide Less;
    if keys[0] in keys[1..] {
      var i :| 0 <= i < |keys| - 1 && keys[1..][i] == keys[0];
      assert Less(keys[0], keys[i + 1]);
      LessTotal(keys[0], keys[0]);
    }
  }

  lemma EntryWritten(entry: seq<byte>, width: nat)
    requires |entry| == 32 + width
    ensures IsAccount(ReadKey(entry)) && Entry(ReadKey(entry), ReadValue(entry), width) == entry
  {
    HexEncodeRoundTrip(entry[..32]);
    FromLittleEndianRoundTrip(entry[32..]);
  }

  lemma {:induction false} EntriesAgree(keys: seq<string>, m: map<Address, nat>, n: map<Address, nat>, width: nat)
    requires forall k | k in keys :: k in m && k in n && m[k] == n[k]
    ensures Entries(keys, m, width) == Entries(keys, n, width)
  {
    hide Entry, KeyError;
    if |keys| > 0 {
      EntriesAgree(keys[..|keys| - 1], m, n, width);
    }
  }

  /** A set has one ascending listing. */
  lemma {:induction false} AscendingIsSorted(keys: seq<string>, s: set<string>)
    requires Ascends(keys) && forall k :: k in keys <==> k in s
    ensures keys == SortedKeys(s)
    decreases |keys|
  {
    hide Less;
    if |keys| == 0 {
      assert s == {};
    } else {
      assert keys[0] in s;
      AscendsHead(keys);
      forall x | x in s && x != keys[0]
        ensures Less(keys[0], x)
      {
        var i :| 0 <= i < |keys| && keys[i] == x;
      }
      assert IsLeast(keys[0], s);
      LeastUnique(s);
      assert forall k :: k in keys[1..] <==> k in s - {keys[0]} by {
        assert keys == [keys[0]] + keys[1..];
      }
      AscendingIsSorted(keys[1..], s - {keys[0]});
    }
  }

  lemma ParsedSection(v: seq<byte>, width: nat, m: map<Address, nat>)
    requires ParseSection(v, width).Some? && SectionAscends(v, width) && ParseSection(v, width).value.m == NonZero(m)
    ensures Section(m, width).Success? && v == Section(m, width).value + ParseSection(v, width).value.rest
  {
    hide Entries, ParseEntries, ReadKeys, NonZero, SortedKeys, Ascends, FromLittleEndian, LittleEndian;
    var keys := ReadKeys(v[8..], CountAt(v), width);
    ParsedEntries(v[8..], CountAt(v), width);
    AscendingIsSorted(keys, NonZero(m).Keys);
    FromLittleEndianRoundTrip(v[..8]);
    var p := ParseSection(v, width).value;
    assert v == v[..8] + v[8..];
    assert v[..8] + (Entries(keys, p.m, width).value + p.rest) == v[..8] + Entries(keys, p.m, width).value + p.rest;
  }

  /** Both sections of a vector ascend. */
  ghost predicate VectorAscends(v: seq<byte>) {
    && |v| >= 10 && SectionAscends(v[10..], 16)
    && match ParseSection(v[10..], 16)
       case None => false
       case Some(first) => SectionAscends(first.rest, 8)
  }

  /** The vector of a well-keyed ledger is the one byte string that parses to its
      non-zero entries with the keys of each section ascending. */
  lemma OnlyVector(l: Ledger, v: seq<byte>)
    requires KeysOk(l) && Fits(l)
    ensures Vector(l).Success?
    ensures v == Vector(l).value <==>
            Parse(v) == Some(Maps(Norm(l).balances, Norm(l).nonces)) && VectorAscends(v)
  {
    hide Parse, ParseSection, SectionAscends, Section, KeysOk, Fits, NonZero;
    VectorRoundTrip(l);
    VectorSorted(l);
    if Parse(v) == Some(Maps(Norm(l).balances, Norm(l).nonces)) && VectorAscends(v) {
      ParsedVector(l, v);
    }
  }

  lemma ParsedVector(l: Ledger, v: seq<byte>)
    requires Parse(v) == Some(Maps(Norm(l).balances, Norm(l).nonces)) && VectorAscends(v)
    ensures Vector(l) == Success(v)
  {
    hide ParseSection, SectionAscends, Section, NonZero;
    ParsedSection(v[10..], 16, l.balances);
    var first := ParseSection(v[10..], 16).value;
    ParsedSection(first.rest, 8, l.nonces);
    var second := ParseSection(first.rest, 8).value;
    assert second.rest == [];
    assert v == v[..10] + v[10..];
    assert first.rest == Section(l.nonces, 8).value;
  }

  /** On a well-keyed ledger the keys of each section ascend strictly, and the
      vector is as long as its entries need. */
  lemma VectorSorted(l: Ledger)
    requires KeysOk(l) && Fits(l)
    ensures Vector(l).Success? && VectorAscends(Vector(l).value)
    ensures |Vector(l).value| == 26 + 48 * |Norm(l).balances| + 40 * |Norm(l).nonces|
    ensures Vector(l).value[..10] == [86, 83, 84, 65, 84, 69, 1, 0, 0, 0]
  {
    hide ParseSection, SectionAscends, Section, NonZero, IsAccount, Limit;
    Limits();
    SectionKeys(l.nonces, 8, []);
    var second := Section(l.nonces, 8).value;
    SectionKeys(l.balances, 16, second);
    SectionRoundTrip(l.balances, 16, second);
    assert second + [] == second;
    var first := Section(l.balances, 16).value;
    SplitAt(Prefix(), first + second, Vector(l).value);
  }

  /** The whole vector of a ledger with one account. */
  lemma OneAccount(key: Address, amount: u128, nonce: u64)
    requires IsAccount(key) && amount > 0 && nonce > 0
    ensures Vector(Ledger(map[key := amount], map[key := nonce]))
            == Success([86, 83, 84, 65, 84, 69, 1, 0, 0, 0]
                       + [1, 0, 0, 0, 0, 0, 0, 0] + HexDecode(key) + LittleEndian(amount, 16)
                       + [1, 0, 0, 0, 0, 0, 0, 0] + HexDecode(key) + LittleEndian(nonce, 8))
  {
    hide Section, LittleEndian, HexDecode;
    OneEntry(key, amount, 16);
    OneEntry(key, nonce, 8);
    OfSections(Ledger(map[key := amount], map[key := nonce]), [1, 0, 0, 0, 0, 0, 0, 0], HexDecode(key),
               LittleEndian(amount, 16), LittleEndian(nonce, 8));
  }

  lemma OfSections(l: Ledger, head: seq<byte>, key: seq<byte>, x: seq<byte>, y: seq<byte>)
    requires Section(l.balances, 16) == Success(head + (key + x)) && Section(l.nonces, 8) == Success(head + (key + y))
    ensures Vector(l) == Success(Prefix() + head + key + x + head + key + y)
  {
    hide Section;
    assert Prefix() + (head + (key + x) + (head + (key + y))) == Prefix() + head + key + x + head + key + y;
  }

  lemma OneEntry(key: Address, value: nat, width: nat)
    requires IsAccount(key) && value > 0
    ensures Section(map[key := value], width)
            == Success([1, 0, 0, 0, 0, 0, 0, 0] + (HexDecode(key) + LittleEndian(value, width)))
  {
    hide HexDecode, LittleEndian, SortedKeys, Entries, Less;
    var m := map[key := value];
    assert NonZero(m) == m;
    assert m.Keys == {key};
    AscendingIsSorted([key], {key});
    OneKey(key, m, width);
    CountOfOne();
  }

  lemma OneKey(key: Address, m: map<Address, nat>, width: nat)
    requires IsAccount(key) && key in m
    ensures Entries([key], m, width) == Success(HexDecode(key) + LittleEndian(m[key], width))
  {
    hide HexDecode, LittleEndian;
    assert [key][..0] == [];
    assert [] + Entry(key, m[key], width) == Entry(key, m[key], width);
  }

  lemma CountOfOne()
    ensures LittleEndian(1, 8) == [1, 0, 0, 0, 0, 0, 0, 0]
  {
    assert LittleEndian(0, 3) == [0, 0, 0];
    assert LittleEndian(0, 5) == [0, 0] + LittleEndian(0, 3);
    assert LittleEndian(0, 7) == [0, 0] + LittleEndian(0, 5);
  }
}
