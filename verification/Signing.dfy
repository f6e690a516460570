/** The demo quorum signer's guards, key records and field mapping (internal/signing/demo.go). */
module Signing {
  import opened Types
  import opened Amounts
  import opened Setup

  const QUORUM := 2

  datatype KeyRecord = KeyRecord(chain: Chain, key: Key, publicKey: string, address: string)

  /** `createPrivateKey`: EVM wallets share the configured key when there is one. */
  function ChooseKey(cfg: Config, chain: Chain, generated: Key): Key {
    if chain == EVM && cfg.devKey.Some? then cfg.devKey.value else generated
  }

  function RecordFor(cfg: Config, chain: Chain, generated: Key): KeyRecord {
    var key := ChooseKey(cfg, chain, generated);
    KeyRecord(chain, key, cfg.publicKey(chain, key), cfg.address(chain, key))
  }

  function HexDigit(c: char): Option<nat> {
    if '0' <= c <= '9' then Some(c as int - '0' as int)
    else if 'a' <= c <= 'f' then Some(c as int - 'a' as int + 10)
    else if 'A' <= c <= 'F' then Some(c as int - 'A' as int + 10)
    else None
  }

  /** `hex.DecodeString`. */
  function DecodeHex(s: string): Option<seq<nat>> {
    if s == "" then Some([])
    else if |s| == 1 then None
    else
      match (HexDigit(s[0]), HexDigit(s[1]), DecodeHex(s[2..]))
      case (Some(hi), Some(lo), Some(rest)) => Some([16 * hi + lo] + rest)
      case _ => None
  }

  function HexChar(n: nat): char
    requires n < 16
  {
    "0123456789abcdef"[n]
  }

  predicate Bytes(b: seq<nat>) { forall i :: 0 <= i < |b| ==> b[i] < 256 }

  function EncodeHex(bytes: seq<nat>): string
    requires Bytes(bytes)
  {
    if bytes == [] then "" else [HexChar(bytes[0] / 16), HexChar(bytes[0] % 16)] + EncodeHex(bytes[1..])
  }

  function LowerChar(c: char): char { if 'A' <= c <= 'Z' then (c as int + 32) as char else c }

  function Lower(s: string): string {
    if s == "" then "" else [LowerChar(s[0])] + Lower(s[1..])
  }

  /** The text is the hexadecimal of the bytes, in either case. */
  ghost predicate HexSpells(s: string, b: seq<nat>) { Bytes(b) && Lower(s) == EncodeHex(b) }

  /** The text of call data: hexadecimal, with or without the prefix. */
  ghost predicate CallData(s: string, b: seq<nat>) {
    HexSpells(s, b) || ("0x" <= s && HexSpells(s[2..], b))
  }

  lemma HexDigitIff(c: char, n: nat)
    ensures HexDigit(c) == Some(n) <==> n < 16 && LowerChar(c) == HexChar(n)
  {
    if n < 16 && LowerChar(c) == HexChar(n) {
      assert "0123456789abcdef"[n] == if n < 10 then ('0' as int + n) as char else ('a' as int + n - 10) as char;
    }
    if HexDigit(c) == Some(n) {
      assert "0123456789abcdef"[n] == if n < 10 then ('0' as int + n) as char else ('a' as int + n - 10) as char;
    }
  }

  lemma {:induction false} LowerAt(s: string)
    ensures |Lower(s)| == |s| && forall i :: 0 <= i < |s| ==> Lower(s)[i] == LowerChar(s[i])
    ensures |s| >= 2 ==> Lower(s)[2..] == Lower(s[2..])
  {
    if s != "" {
      LowerAt(s[1..]);
      if |s| >= 2 { assert Lower(s)[2..] == Lower(s[1..])[1..]; assert s[1..][1..] == s[2..]; }
    }
  }

  /** Decoding succeeds with these bytes if and only if the text spells them; odd lengths spell nothing. */
  lemma {:induction false} DecodeIff(s: string, b: seq<nat>)
    ensures DecodeHex(s) == Some(b) <==> HexSpells(s, b)
    decreases |s|
  {
    LowerAt(s);
    if s == "" {
      assert b != [] && Bytes(b) ==> EncodeHex(b) != "";
    } else if |s| == 1 {
      assert b != [] && Bytes(b) ==> |EncodeHex(b)| >= 2;
    } else if b != [] {
      DecodeIff(s[2..], b[1..]);
      assert b == [b[0]] + b[1..];
      assert Bytes(b) <==> b[0] < 256 && Bytes(b[1..]);
      HexDigitIff(s[0], b[0] / 16);
      HexDigitIff(s[1], b[0] % 16);
      DecodePair(s, b);
    }
  }

  /** One byte of the text. */
  lemma DecodePair(s: string, b: seq<nat>)
    requires |s| >= 2 && b != []
    requires DecodeHex(s[2..]) == Some(b[1..]) <==> HexSpells(s[2..], b[1..])
    requires HexDigit(s[0]) == Some(b[0] / 16) <==> b[0] / 16 < 16 && LowerChar(s[0]) == HexChar(b[0] / 16)
    requires HexDigit(s[1]) == Some(b[0] % 16) <==> LowerChar(s[1]) == HexChar(b[0] % 16)
    ensures DecodeHex(s) == Some(b) <==> HexSpells(s, b)
  {
    PairDecodes(s, b);
    PairSpells(s, b);
    hide HexDigit, HexChar, LowerChar, DecodeHex, HexSpells;
  }

  lemma PairDecodes(s: string, b: seq<nat>)
    requires |s| >= 2 && b != []
    ensures DecodeHex(s) == Some(b) <==>
      b[0] < 256 && HexDigit(s[0]) == Some(b[0] / 16) && HexDigit(s[1]) == Some(b[0] % 16) && DecodeHex(s[2..]) == Some(b[1..])
  {
    assert b == [b[0]] + b[1..];
    var hi, lo := HexDigit(s[0]), HexDigit(s[1]);
    assert (hi.Some? ==> hi.value < 16) && (lo.Some? ==> lo.value < 16);
    hide HexDigit;
    if DecodeHex(s) == Some(b) {
      assert b[0] == 16 * hi.value + lo.value;
      assert b[0] / 16 == hi.value && b[0] % 16 == lo.value;
    }
  }

  lemma PairSpells(s: string, b: seq<nat>)
    requires |s| >= 2 && b != []
    ensures HexSpells(s, b) <==>
      b[0] < 256 && LowerChar(s[0]) == HexChar(b[0] / 16) && LowerChar(s[1]) == HexChar(b[0] % 16) && HexSpells(s[2..], b[1..])
  {
    LowerAt(s);
    assert Bytes(b) <==> b[0] < 256 && Bytes(b[1..]);
    hide HexChar, LowerChar;
    assert Lower(s) == [LowerChar(s[0]), LowerChar(s[1])] + Lower(s[2..]);
    if Bytes(b) {
      var e := EncodeHex(b);
      assert e[2..] == EncodeHex(b[1..]) && e[0] == HexChar(b[0] / 16) && e[1] == HexChar(b[0] % 16);
      assert Lower(s)[2..] == Lower(s[2..]);
    }
  }

  /** What the signer reads as call data. */
  lemma CallDataIff(s: string, b: seq<nat>)
    ensures DecodeHex(TrimHexPrefix(s)) == Some(b) <==> CallData(s, b)
  {
    DecodeIff(TrimHexPrefix(s), b);
    DecodeIff(s, b);
    if "0x" <= s {
      assert s[1] == 'x' && HexDigit('x') == None;
      assert DecodeHex(s) == None;
    }
    hide DecodeHex;
  }

  function TrimHexPrefix(s: string): string {
    if "0x" <= s then s[2..] else s
  }

  /** `signEVMTransaction`: every field of the signed transaction comes from the stored payload. */
  function SignEvm(raw: Payload, key: Key): Result<SignedTx, string> {
    if !raw.EvmPayload? || ParseDecimal(raw.valueWei).None? then Err("evm value_wei must be a base-10 integer")
    else if ParseDecimal(raw.maxFeePerGas).None? then Err("evm max_fee_per_gas must be a base-10 integer")
    else if ParseDecimal(raw.maxPriorityFeePerGas).None? then Err("evm max_priority_fee_per_gas must be a base-10 integer")
    else if DecodeHex(TrimHexPrefix(raw.data)).None? then Err("encoding/hex: invalid data")
    else Ok(RawEvm(key, raw.chainID, raw.nonce,
                   ParseDecimal(raw.maxPriorityFeePerGas).value, ParseDecimal(raw.maxFeePerGas).value,
                   raw.gasLimit, raw.to, ParseDecimal(raw.valueWei).value,
                   DecodeHex(TrimHexPrefix(raw.data)).value))
  }

  const REFUSED := "the payload cannot be signed or encoded"

  /** `SignTransaction` on a live context; `salt` is the signer's randomness. */
  function Sign(cfg: Config, records: map<string, KeyRecord>, p: Proposal, salt: int): Result<SignedTx, string> {
    if |p.approvals| < QUORUM then Err("2-of-3 quorum has not been reached")
    else if p.walletID !in records then Err("signing wallet material not found")
    else
      var key := records[p.walletID].key;
      var out := if p.chain == EVM then SignEvm(p.raw, key) else Ok(Envelope(key, p.walletID, p.chain, p.raw, salt));
      if out.Ok? && cfg.refuses(p.raw) then Err(REFUSED) else out
  }

  /** No signature is ever made over this payload, whatever the key and the randomness. */
  predicate Unsignable(cfg: Config, chain: Chain, raw: Payload) {
    cfg.refuses(raw) || (chain == EVM && SignEvm(raw, 0).Err?)
  }

  /** Why: the first field the signer cannot read, else the cryptography or the encoder. */
  function WhyUnsignable(chain: Chain, raw: Payload): string {
    if chain == EVM && SignEvm(raw, 0).Err? then SignEvm(raw, 0).error else REFUSED
  }

  /** With quorum and key material at hand, the payload alone decides. */
  lemma SignDecides(cfg: Config, records: map<string, KeyRecord>, p: Proposal, salt: int)
    ensures Unsignable(cfg, p.chain, p.raw) ==> Sign(cfg, records, p, salt).Err?
    ensures |p.approvals| >= QUORUM && p.walletID in records ==>
      (Sign(cfg, records, p, salt).Err? <==> Unsignable(cfg, p.chain, p.raw))
    ensures |p.approvals| >= QUORUM && p.walletID in records && Sign(cfg, records, p, salt).Err? ==>
      Sign(cfg, records, p, salt).error == WhyUnsignable(p.chain, p.raw)
  {}

  /** Quorum is two approvals, and the key is the wallet's own. */
  lemma SignTells(cfg: Config, records: map<string, KeyRecord>, p: Proposal, salt: int)
    ensures |p.approvals| < 2 ==> Sign(cfg, records, p, salt) == Err("2-of-3 quorum has not been reached")
    ensures |p.approvals| >= 2 && p.walletID !in records ==>
      Sign(cfg, records, p, salt) == Err("signing wallet material not found")
    ensures Sign(cfg, records, p, salt).Ok? ==>
      && |p.approvals| >= 2 && p.walletID in records && !Sign(cfg, records, p, salt).value.Unsigned?
      && Sign(cfg, records, p, salt).value.key == records[p.walletID].key
  {}

  class DemoQuorumBackend {
    var records: map<string, KeyRecord>

    constructor ()
      ensures records == map[]
    {
      records := map[];
    }

    method CreateWallet(cfg: Config, walletID: string, chain: Chain, generated: Key)
      returns (address: string, publicKey: string)
      modifies this
      ensures records == old(records)[walletID := RecordFor(cfg, chain, generated)]
      ensures address == records[walletID].address && publicKey == records[walletID].publicKey
    {
      var key := if chain == EVM && cfg.devKey.Some? then cfg.devKey.value else generated;
      publicKey := cfg.publicKey(chain, key);
      address := cfg.address(chain, key);
      records := records[walletID := KeyRecord(chain, key, publicKey, address)];
    }

    method SignTransaction(cfg: Config, p: Proposal, salt: int, live: bool) returns (out: Result<SignedTx, Error>)
      ensures !live ==> out == Err(ContextDone)
      ensures live ==> match Sign(cfg, records, p, salt) case Ok(signed) => out == Ok(signed) case Err(e) => out == Err(Other(e))
      ensures out.Ok? ==> |p.approvals| >= 2 && p.walletID in records && out.value.key == records[p.walletID].key
    {
      if !live { return Err(ContextDone); }
      if |p.approvals| < QUORUM { return Err(Other("2-of-3 quorum has not been reached")); }
      if p.walletID !in records { return Err(Other("signing wallet material not found")); }
      var record := records[p.walletID];
      if p.chain == EVM {
        var signed := SignEvm(p.raw, record.key);
        if signed.Err? { return Err(Other(signed.error)); }
        if cfg.refuses(p.raw) { return Err(Other(REFUSED)); }
        return Ok(signed.value);
      }
      if cfg.refuses(p.raw) { return Err(Other(REFUSED)); }
      out := Ok(Envelope(record.key, p.walletID, p.chain, p.raw, salt));
    }
  }
}
