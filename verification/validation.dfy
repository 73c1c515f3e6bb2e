/** The input validators of the API server (cmd/api/main.go). They run on the
    raw path parameters before any store access or upstream fetch.

    Go strings are byte strings; here a string is a `seq<char>`. The two views
    give the same verdicts: every character the validators accept is ASCII
    (one byte), and a non-ASCII character is rejected in either view, so a
    string containing one is rejected whatever its length. */
module Validation {

  /** HTTP status written by a validator that rejects its input. */
  const BadRequest: nat := 400

  /** The chain identifiers the server serves. */
  const Chains: set<string> := {"eth", "sepolia"}

  /** The characters of a hexadecimal digit, in either case. */
  const HexDigits: set<char> := set c | c in "0123456789abcdefABCDEF"

  /** The verdict of a validator: accept, or reject with the status and the
      message it writes to the response. */
  datatype Verdict = Accept | Reject(status: nat, message: string)

  /** `isHexCharacter`: three character ranges. */
  function IsHexCharacter(c: char): (b: bool)
    ensures b <==> c in HexDigits
  {
    ('0' <= c <= '9') || ('a' <= c <= 'f') || ('A' <= c <= 'F')
  }

  /** The `for` loop of `isHex`: every character of `s` is a hex digit. */
  function AllHexCharacters(s: string): (b: bool)
    ensures b <==> forall i :: 0 <= i < |s| ==> s[i] in HexDigits
  {
    if |s| == 0 then true
    else IsHexCharacter(s[0]) && AllHexCharacters(s[1..])
  }

  /** `isHex`: an even number of characters, all of them hex digits. The
      empty string qualifies. */
  function IsHex(s: string): (b: bool)
    ensures |s| % 2 != 0 ==> !b
    ensures b <==> |s| % 2 == 0 && forall i :: 0 <= i < |s| ==> s[i] in HexDigits
  {
    if |s| % 2 != 0 then false else AllHexCharacters(s)
  }

  /** `validateChain`: only the chains of the allow-list pass; anything else
      gets a 400 whose message names the offending value. */
  function ValidateChain(chain: string): (v: Verdict)
    ensures v.Accept? <==> chain in Chains
    ensures v.Reject? ==> v.status == BadRequest
    ensures v.Reject? ==> chain <= v.message
  {
    if chain == "eth" || chain == "sepolia" then Accept
    else Reject(BadRequest, chain + " is not a valid chain name\n")
  }

  /** `validateAddress`: the exact prefix "0x" followed by an `isHex`
      payload; anything else gets a 400 whose message names the value. */
  function ValidateAddress(address: string): (v: Verdict)
    ensures v.Accept? <==> exists payload :: address == "0x" + payload && IsHex(payload)
    ensures v.Reject? ==> v.status == BadRequest
    ensures v.Reject? ==> address <= v.message
  {
    if |address| >= 2 && address[..2] == "0x" && IsHex(address[2..]) then
      assert address == "0x" + address[2..];
      Accept
    else
      Reject(BadRequest, address + " is not a valid address\n")
  }

  /** The shape an accepted address has, stated position by position: even
      length, '0' then 'x', hex digits everywhere after. */
  predicate AddressShape(a: string)
  {
    && |a| >= 2 && |a| % 2 == 0
    && a[0] == '0' && a[1] == 'x'
    && forall i :: 2 <= i < |a| ==> a[i] in HexDigits
  }

  /** The validator accepts exactly the addresses of that shape. */
  lemma ValidateAddressIsShape(a: string)
    ensures ValidateAddress(a).Accept? <==> AddressShape(a)
  {
    if AddressShape(a) {
      var payload := a[2..];
      assert a == "0x" + payload;
      assert forall i :: 0 <= i < |payload| ==> payload[i] == a[i + 2];
    }
    if ValidateAddress(a).Accept? {
      var payload :| a == "0x" + payload && IsHex(payload);
      assert forall i :: 2 <= i < |a| ==> a[i] == payload[i - 2];
    }
  }

  /** Addresses that pass: the bare prefix, because the empty payload is
      hex, and even-length payloads in either case. */
  lemma AcceptedAddressExamples()
    ensures IsHex("")
    ensures ValidateAddress("0x").Accept?
    ensures ValidateAddress("0x1234").Accept?
    ensures ValidateAddress("0xAbCd").Accept?
  {
    assert "0x" == "0x" + "";
    assert "0x1234" == "0x" + "1234";
    assert "0xAbCd" == "0x" + "AbCd";
  }

  /** Addresses that fail: an odd-length payload, an upper-case 'X', and a
      value too short to hold the prefix. */
  lemma RejectedAddressExamples()
    ensures ValidateAddress("0x123").Reject?
    ensures ValidateAddress("0X12").Reject?
    ensures ValidateAddress("").Reject?
  {
    ValidateAddressIsShape("0x123");
    ValidateAddressIsShape("0X12");
    ValidateAddressIsShape("");
  }

  /** Chain edge cases: matching is exact and case-sensitive. */
  lemma ChainExamples()
    ensures ValidateChain("eth").Accept?
    ensures ValidateChain("sepolia").Accept?
    ensures ValidateChain("").Reject?
    ensures ValidateChain("polygon").Reject?
    ensures ValidateChain("ETH").Reject?
  {
  }
}
