/** The canonical byte vector of a ledger and the state root hashed from it.
 */
module StateRoots {
  import opened Base
  import opened KeyOrder
  import opened Ledgers

  datatype RootError = MalformedAccountKey | MixedCaseAccountKey

  // --- Little-endian integers ---

  /** The low bytes of a number, least significant first. */
  function LittleEndian(n: nat, width: nat): (bytes: seq<byte>)
    ensures |bytes| == width
  {
    if width == 0 then [] else [n % 256] + LittleEndian(n / 256, width - 1)
  }

  function FromLittleEndian(bytes: seq<byte>): nat {
    if |bytes| == 0 then 0 else bytes[0] + 256 * FromLittleEndian(bytes[1..])
  }

  function Limit(width: nat): (l: nat)
    ensures l >= 1
  {
    if width == 0 then 1 else 256 * Limit(width - 1)
  }

  lemma {:induction false} LittleEndianRoundTrip(n: nat, width: nat)
    requires n < Limit(width)
    ensures FromLittleEndian(LittleEndian(n, width)) == n
  {
    if width != 0 {
      LittleEndianRoundTrip(n / 256, width - 1);
      assert LittleEndian(n, width)[1..] == LittleEndian(n / 256, width - 1);
    }
  }

  lemma Limits()
    ensures Limit(8) == U64_LIMIT && Limit(16) == U128_LIMIT
  {
    assert Limit(4) == 0x1_0000_0000;
    assert Limit(8) == U64_LIMIT;
    assert Limit(12) == 0x1_0000_0000_0000_0000_0000_0000;
    assert Limit(16) == U128_LIMIT;
  }

  // --- Hex keys ---

  function HexValue(ch: char): (v: nat)
    requires IsLowerHexChar(ch)
    ensures v < 16
  {
    if ch <= '9' then ch as int - '0' as int else ch as int - 'a' as int + 10
  }

  function HexDigit(v: nat): (ch: char)
    requires v < 16
    ensures IsLowerHexChar(ch) && HexValue(ch) == v
  {
    if v < 10 then (v + '0' as int) as char else (v - 10 + 'a' as int) as char
  }

  function HexDecode(s: string): (bytes: seq<byte>)
    requires |s| % 2 == 0 && IsLowerHex(s)
    ensures |bytes| == |s| / 2
  {
    if |s| == 0 then [] else [16 * HexValue(s[0]) + HexValue(s[1])] + HexDecode(s[2..])
  }

  function HexEncode(bytes: seq<byte>): string {
    if |bytes| == 0 then [] else [HexDigit(bytes[0] / 16), HexDigit(bytes[0] % 16)] + HexEncode(bytes[1..])
  }

  lemma {:induction false} HexRoundTrip(s: string)
    requires |s| % 2 == 0 && IsLowerHex(s)
    ensures HexEncode(HexDecode(s)) == s
    decreases |s|
  {
    if |s| != 0 {
      HexRoundTrip(s[2..]);
      assert HexDecode(s)[1..] == HexDecode(s[2..]);
      assert s == [s[0], s[1]] + s[2..];
    }
  }

  // --- Account keys ---

  predicate IsUpperHexChar(ch: char) {
    'A' <= ch <= 'F'
  }

  /** Why a key is not an account; uppercase hex is reported ahead of anything else. */
  function KeyError(key: string): (e: Option<RootError>)
    ensures e.None? <==> IsAccount(key)
  {
    if |key| != 64 then Some(MalformedAccountKey)
    else if exists i | 0 <= i < |key| :: IsUpperHexChar(key[i]) then Some(MixedCaseAccountKey)
    else if exists i | 0 <= i < |key| :: !IsLowerHexChar(key[i]) then Some(MalformedAccountKey)
    else None
  }

  method ValidateAccountKey(key: string) returns (e: Option<RootError>)
    ensures e == KeyError(key)
  {
    if |key| != 64 {
      return Some(MalformedAccountKey);
    }
    var sawUppercase, sawNonLowerHex := false, false;
    for i := 0 to |key|
      invariant sawUppercase <==> exists j | 0 <= j < i :: IsUpperHexChar(key[j])
      invariant !sawUppercase ==> (sawNonLowerHex <==> exists j | 0 <= j < i :: !IsLowerHexChar(key[j]))
    {
      if IsUpperHexChar(key[i]) {
        sawUppercase := true;
      } else if !IsLowerHexChar(key[i]) {
        sawNonLowerHex := true;
      }
    }
    if sawUppercase {
      return Some(MixedCaseAccountKey);
    }
    if sawNonLowerHex {
      return Some(MalformedAccountKey);
    }
    return None;
  }

  // --- The vector ---

  /** One account entry: the decoded key, then the value. */
  function Entry(key: string, value: nat, width: nat): (e: seq<byte>)
    ensures IsAccount(key) ==> |e| == 32 + width
  {
    (if IsAccount(key) then HexDecode(key) else []) + LittleEndian(value, width)
  }

  /** All entries in key order, or the first malformed key. */
  function Entries(keys: seq<string>, m: map<Address, nat>, width: nat): Result<seq<byte>, RootError>
    requires forall k | k in keys :: k in m
  {
    if |keys| == 0 then Success([])
    else
      var key := keys[|keys| - 1];
      var out :- Entries(keys[..|keys| - 1], m, width);
      match KeyError(key)
      case Some(e) => Failure(e)
      case None => Success(out + Entry(key, m[key], width))
  }

  /** The entry count, then the non-zero entries. */
  function Section(m: map<Address, nat>, width: nat): Result<seq<byte>, RootError> {
    var keys := SortedKeys(NonZero(m).Keys);
    var entries :- Entries(keys, NonZero(m), width);
    Success(LittleEndian(|keys|, 8) + entries)
  }

  /** The ASCII bytes "VSTATE", then version 1 in four little-endian bytes. */
  function Prefix(): (p: seq<byte>)
    ensures |p| == 10
  {
    [86, 83, 84, 65, 84, 69, 1, 0, 0, 0]
  }

  function Sections(m: map<Address, nat>, width: nat, n: map<Address, nat>, width': nat): Result<seq<byte>, RootError> {
    var first :- Section(m, width);
    var second :- Section(n, width');
    Success(first + second)
  }

  function Vector(l: Ledger): Result<seq<byte>, RootError> {
    var sections :- Sections(l.balances, 16, l.nonces, 8);
    Success(Prefix() + sections)
  }

  function Root(c: Crypto, l: Ledger): Result<string, RootError> {
    var v :- Vector(l);
    Success(c.stateHash(v))
  }

  method AppendEntries(out: seq<byte>, m: map<Address, nat>, width: nat) returns (r: Result<seq<byte>, RootError>)
    ensures match Section(m, width)
            case Success(section) => r == Success(out + section)
            case Failure(e) => r == Failure(e)
  {
    hide Entry, KeyError, SortedKeys;
    var entries := NonZero(m);
    var keys := SortedKeys(entries.Keys);
    var count := LittleEndian(|keys|, 8);
    var body := [];
    assert keys[..0] == [];
    for i := 0 to |keys|
      invariant Entries(keys[..i], entries, width) == Success(body)
    {
      assert keys[..i + 1][..i] == keys[..i];
      var e := ValidateAccountKey(keys[i]);
      if e.Some? {
        EntriesFail(keys, entries, width, i + 1);
        return Failure(e.value);
      }
      body := body + Entry(keys[i], entries[keys[i]], width);
    }
    assert keys[..|keys|] == keys;
    return Success(out + (count + body));
  }

  lemma {:induction false} EntriesFail(keys: seq<string>, m: map<Address, nat>, width: nat, n: nat)
    requires forall k | k in keys :: k in m
    requires n <= |keys| && Entries(keys[..n], m, width).Failure?
    ensures Entries(keys, m, width) == Entries(keys[..n], m, width)
    decreases |keys| - n
  {
    if n == |keys| {
      assert keys[..n] == keys;
    } else {
      assert keys[..n + 1][..n] == keys[..n];
      EntriesFail(keys, m, width, n + 1);
    }
  }

  method ComputeStateRoot(c: Crypto, l: Ledger) returns (r: Result<string, RootError>)
    ensures r == Root(c, l)
  {
    hide Section, Prefix;
    var out := Prefix();
    var withBalances := AppendEntries(out, l.balances, 16);
    if withBalances.Failure? {
      return Failure(withBalances.error);
    }
    var withNonces := AppendEntries(withBalances.value, l.nonces, 8);
    if withNonces.Failure? {
      return Failure(withNonces.error);
    }
    assert withNonces.value == out + Sections(l.balances, 16, l.nonces, 8).value;
    return Success(c.stateHash(withNonces.value));
  }

  /** The state root cannot tell a ledger from its zero-free form. */
  lemma RootCongruent(c: Crypto, l: Ledger, k: Ledger)
    requires Same(l, k)
    ensures Vector(l) == Vector(k) && Root(c, l) == Root(c, k)
  {
  }

  ghost predicate AllAccounts(keys: seq<string>) {
    forall k | k in keys :: IsAccount(k)
  }

  lemma AllAccountsSnoc(keys: seq<string>)
    requires |keys| > 0
    ensures AllAccounts(keys) <==> AllAccounts(keys[..|keys| - 1]) && IsAccount(keys[|keys| - 1])
  {
    hide IsAccount;
    assert keys == keys[..|keys| - 1] + [keys[|keys| - 1]];
  }

  lemma {:induction false} EntriesTotal(keys: seq<string>, m: map<Address, nat>, width: nat)
    requires forall k | k in keys :: k in m
    ensures Entries(keys, m, width).Success? <==> AllAccounts(keys)
  {
    hide AllAccounts, Entry, KeyError, IsAccount;
    if |keys| > 0 {
      EntriesTotal(keys[..|keys| - 1], m, width);
      AllAccountsSnoc(keys);
    } else {
      NoAccounts();
    }
  }

  lemma NoAccounts()
    ensures AllAccounts([])
  {
  }

  lemma SectionTotal(m: map<Address, nat>, width: nat)
    ensures Section(m, width).Success? <==> forall k | k in NonZero(m) :: IsAccount(k)
  {
    EntriesTotal(SortedKeys(NonZero(m).Keys), NonZero(m), width);
  }

  /** A ledger has a state root exactly when every account that holds something
      is a 64-character lowercase hex key. */
  lemma RootTotal(c: Crypto, l: Ledger)
    ensures Root(c, l).Success? <==> KeysOk(Norm(l))
  {
    SectionTotal(l.balances, 16);
    SectionTotal(l.nonces, 8);
  }

  // --- Reading the vector back ---

  datatype Parsed = Parsed(m: map<Address, nat>, rest: seq<byte>)

  function ReadKey(entry: seq<byte>): string
    requires |entry| >= 32
  {
    HexEncode(entry[..32])
  }

  function ReadValue(entry: seq<byte>): nat
    requires |entry| >= 32
  {
    FromLittleEndian(entry[32..])
  }

  lemma EntryRoundTrip(key: string, value: nat, width: nat)
    requires IsAccount(key) && value < Limit(width)
    ensures ReadKey(Entry(key, value, width)) == key && ReadValue(Entry(key, value, width)) == value
  {
    var e := Entry(key, value, width);
    assert e[..32] == HexDecode(key) && e[32..] == LittleEndian(value, width);
    HexRoundTrip(key);
    LittleEndianRoundTrip(value, width);
  }

  /** Read n entries off the front. */
  function ParseEntries(v: seq<byte>, n: nat, width: nat): Option<Parsed> {
    if n == 0 then Some(Parsed(map[], v))
    else if |v| < 32 + width then None
    else match ParseEntries(v[32 + width..], n - 1, width)
      case None => None
      case Some(p) => Some(Parsed(p.m[ReadKey(v[..32 + width]) := ReadValue(v[..32 + width])], p.rest))
  }

  function ParseSection(v: seq<byte>, width: nat): Option<Parsed> {
    if |v| < 8 then None else ParseEntries(v[8..], FromLittleEndian(v[..8]), width)
  }

  datatype Maps = Maps(balances: map<Address, nat>, nonces: map<Address, nat>)

  /** Both sections and nothing left over. */
  function ParseSections(v: seq<byte>, width: nat, width': nat): Option<Maps> {
    match ParseSection(v, width)
    case None => None
    case Some(b) =>
      match ParseSection(b.rest, width')
      case None => None
      case Some(n) => if n.rest == [] then Some(Maps(b.m, n.m)) else None
  }

  /** The inverse of the vector: it accepts the whole input or nothing. */
  function Parse(v: seq<byte>): Option<Maps> {
    if |v| < 10 || v[..10] != Prefix() then None else ParseSections(v[10..], 16, 8)
  }

  function Restrict(m: map<Address, nat>, keys: seq<string>): map<Address, nat> {
    map k | k in keys && k in m :: m[k]
  }

  /** Entries peeled from the front, the order the parser meets them in. */
  lemma {:induction false} EntriesFront(keys: seq<string>, m: map<Address, nat>, width: nat)
    requires |keys| > 0 && forall k | k in keys :: k in m && IsAccount(k)
    ensures Entries(keys, m, width).Success? && Entries(keys[1..], m, width).Success?
    ensures Entries(keys, m, width).value
            == Entry(keys[0], m[keys[0]], width) + Entries(keys[1..], m, width).value
    decreases |keys|
  {
    hide Entry, KeyError, IsAccount;
    if |keys| == 1 {
      assert keys[..0] == [] && keys[1..] == [];
    } else {
      EntriesFront(keys[..|keys| - 1], m, width);
      assert keys[1..][..|keys[1..]| - 1] == keys[..|keys| - 1][1..];
    }
  }

  lemma SplitAt(front: seq<byte>, back: seq<byte>, v: seq<byte>)
    requires v == front + back
    ensures v[..|front|] == front && v[|front|..] == back
  {
  }

  lemma RestrictFront(m: map<Address, nat>, keys: seq<string>)
    requires |keys| > 0 && keys[0] in m
    ensures Restrict(m, keys) == Restrict(m, keys[1..])[keys[0] := m[keys[0]]]
  {
    assert keys == [keys[0]] + keys[1..];
  }

  lemma {:induction false} EntriesRoundTrip(keys: seq<string>, m: map<Address, nat>, width: nat, rest: seq<byte>)
    requires forall k | k in keys :: k in m && IsAccount(k) && m[k] < Limit(width)
    ensures Entries(keys, m, width).Success?
    ensures ParseEntries(Entries(keys, m, width).value + rest, |keys|, width) == Some(Parsed(Restrict(m, keys), rest))
    decreases |keys|
  {
    hide Entry, ReadKey, ReadValue, KeyError, IsAccount, Limit, Restrict;
    if |keys| == 0 {
      assert [] + rest == rest;
      RestrictNone(m);
    } else {
      var entry, others := Entry(keys[0], m[keys[0]], width), Entries(keys[1..], m, width);
      EntriesFront(keys, m, width);
      EntriesRoundTrip(keys[1..], m, width, rest);
      assert entry + others.value + rest == entry + (others.value + rest);
      SplitAt(entry, others.value + rest, Entries(keys, m, width).value + rest);
      EntryRoundTrip(keys[0], m[keys[0]], width);
      RestrictFront(m, keys);
    }
  }

  lemma RestrictNone(m: map<Address, nat>)
    ensures Restrict(m, []) == map[]
  {
  }

  lemma SectionRoundTrip(m: map<Address, nat>, width: nat, rest: seq<byte>)
    requires forall k | k in m :: IsAccount(k) && m[k] < Limit(width)
    requires |NonZero(m)| < U64_LIMIT
    ensures Section(m, width).Success?
    ensures ParseSection(Section(m, width).value + rest, width) == Some(Parsed(NonZero(m), rest))
  {
    hide NonZero, Entries, ParseEntries, LittleEndian, FromLittleEndian, Restrict, Limit, IsAccount, SortedKeys;
    var nz := NonZero(m);
    var keys := SortedKeys(nz.Keys);
    EntriesRoundTrip(keys, nz, width, rest);
    Limits();
    CountRoundTrip(|keys|);
    var count, body := LittleEndian(|keys|, 8), Entries(keys, nz, width).value;
    assert count + body + rest == count + (body + rest);
    SplitAt(count, body + rest, Section(m, width).value + rest);
    RestrictAll(nz, keys);
  }

  lemma CountRoundTrip(n: nat)
    requires n < U64_LIMIT
    ensures |LittleEndian(n, 8)| == 8 && FromLittleEndian(LittleEndian(n, 8)) == n
  {
    hide LittleEndian, FromLittleEndian, Limit;
    Limits();
    LittleEndianRoundTrip(n, 8);
  }

  lemma RestrictAll(m: map<Address, nat>, keys: seq<string>)
    requires forall k | k in m :: k in keys
    ensures Restrict(m, keys) == m
  {
  }

  /** A ledger that an in-memory map can hold. */
  ghost predicate Fits(l: Ledger) {
    |Norm(l).balances| < U64_LIMIT && |Norm(l).nonces| < U64_LIMIT
  }

  lemma SectionsRoundTrip(m: map<Address, nat>, width: nat, n: map<Address, nat>, width': nat)
    requires forall k | k in m :: IsAccount(k) && m[k] < Limit(width)
    requires forall k | k in n :: IsAccount(k) && n[k] < Limit(width')
    requires |NonZero(m)| < U64_LIMIT && |NonZero(n)| < U64_LIMIT
    ensures Sections(m, width, n, width').Success?
    ensures ParseSections(Sections(m, width, n, width').value, width, width') == Some(Maps(NonZero(m), NonZero(n)))
  {
    SectionRoundTrip(n, width', []);
    var second := Section(n, width').value;
    SectionRoundTrip(m, width, second);
    assert second + [] == second;
  }

  /** On well-keyed ledgers the vector never fails, and parsing it returns
      exactly the non-zero entries. */
  lemma VectorRoundTrip(l: Ledger)
    requires KeysOk(l) && Fits(l)
    ensures Vector(l).Success?
    ensures Parse(Vector(l).value) == Some(Maps(Norm(l).balances, Norm(l).nonces))
  {
    hide Sections, ParseSections, Limit, IsAccount, NonZero;
    Limits();
    SectionsRoundTrip(l.balances, 16, l.nonces, 8);
    SplitAt(Prefix(), Sections(l.balances, 16, l.nonces, 8).value, Vector(l).value);
  }

  /** Two ledgers have the same vector exactly when their non-zero balances
      and nonces agree. */
  lemma VectorInjective(l: Ledger, k: Ledger)
    requires KeysOk(l) && KeysOk(k) && Fits(l) && Fits(k)
    ensures Vector(l) == Vector(k) <==> Same(l, k)
  {
    VectorRoundTrip(l);
    VectorRoundTrip(k);
  }
}
