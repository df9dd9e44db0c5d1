/** The text key that identifies a device port: the device id, a colon and the port number in decimal. */
module PortKey {

  predicate AreDigits(s: string) {
    forall i :: 0 <= i < |s| ==> '0' <= s[i] <= '9'
  }

  function Decimal(n: nat): (s: string)
    ensures s != [] && AreDigits(s)
  {
    var digit := ['0' + (n % 10) as char];
    if n < 10 then digit else Decimal(n / 10) + digit
  }

  function ConcatDeviceIdPortId(deviceId: string, portNo: nat): string {
    deviceId + ":" + Decimal(portNo)
  }

  lemma {:induction false} DecimalIsInjective(n: nat, m: nat)
    requires Decimal(n) == Decimal(m)
    ensures n == m
  {
    var s := Decimal(n);
    assert s[|s| - 1] == '0' + (n % 10) as char && s[|s| - 1] == '0' + (m % 10) as char;
    if |s| > 1 {
      assert Decimal(n / 10) == s[..|s| - 1] == Decimal(m / 10);
      DecimalIsInjective(n / 10, m / 10);
    }
  }

  /** The number that a row of decimal digits stands for. */
  function ValueOf(s: string): nat
    requires AreDigits(s)
  {
    if s == [] then 0 else 10 * ValueOf(s[..|s| - 1]) + (s[|s| - 1] - '0') as nat
  }

  lemma {:induction false} DecimalIsValue(n: nat)
    ensures ValueOf(Decimal(n)) == n && (n > 0 ==> Decimal(n)[0] != '0')
  {
    var s := Decimal(n);
    assert s[|s| - 1] == '0' + (n % 10) as char;
    if n >= 10 {
      DecimalIsValue(n / 10);
      assert s[..|s| - 1] == Decimal(n / 10);
    } else {
      assert s[..|s| - 1] == [];
    }
  }

  /** The key reads as the device id, a colon and the port number in decimal without leading zeros. */
  lemma KeyReads(d: string, n: nat)
    ensures var k := ConcatDeviceIdPortId(d, n);
            && |k| > |d| + 1 && k[..|d|] == d && k[|d|] == ':'
            && AreDigits(k[|d| + 1..]) && ValueOf(k[|d| + 1..]) == n && (n > 0 ==> k[|d| + 1] != '0')
  {
    var k := ConcatDeviceIdPortId(d, n);
    assert k[|d| + 1..] == Decimal(n) && k[|d| + 1] == Decimal(n)[0];
    DecimalIsValue(n);
  }

  /** The device id ends at the last colon of the key. */
  lemma IdEndsAtLastColon(d: string, n: nat)
    ensures var k := ConcatDeviceIdPortId(d, n);
            k[|d|] == ':' && forall i :: |d| < i < |k| ==> k[i] != ':'
  {
    var k := ConcatDeviceIdPortId(d, n);
    forall i | |d| < i < |k|
      ensures k[i] != ':'
    {
      assert k[i] == Decimal(n)[i - |d| - 1];
    }
  }

  /** Distinct device ports have distinct keys, even when device ids contain colons. */
  lemma KeyIsInjective(d1: string, n1: nat, d2: string, n2: nat)
    requires ConcatDeviceIdPortId(d1, n1) == ConcatDeviceIdPortId(d2, n2)
    ensures d1 == d2 && n1 == n2
  {
    var k := ConcatDeviceIdPortId(d1, n1);
    IdEndsAtLastColon(d1, n1);
    IdEndsAtLastColon(d2, n2);
    assert d1 == k[..|d1|] && d2 == k[..|d2|];
    assert Decimal(n1) == k[|d1| + 1..] && Decimal(n2) == k[|d2| + 1..];
    DecimalIsInjective(n1, n2);
  }
}
