/** The storage key of a tab's colour record, `color_${tabId}`. Tab ids are
    non-negative integers, which a template literal renders in decimal. */
module TabKeys {

  const KeyPrefix: string := "color_"

  function DigitChar(d: nat): (c: char)
    requires d < 10
    ensures '0' <= c <= '9'
  {
    ('0' as int + d) as char
  }

  /** The decimal rendering of `n`, without sign or leading zeros. */
  function NatToString(n: nat): (s: string)
    ensures |s| > 0
    ensures forall i :: 0 <= i < |s| ==> '0' <= s[i] <= '9'
    ensures n < 10 <==> |s| == 1
    ensures n >= 10 ==> s[0] != '0'
  {
    if n < 10 then [DigitChar(n)] else NatToString(n / 10) + [DigitChar(n % 10)]
  }

  /** Two tab ids never render the same way. */
  lemma {:induction false} NatToStringInjective(a: nat, b: nat)
    requires NatToString(a) == NatToString(b)
    ensures a == b
  {
    if a >= 10 && b >= 10 {
      var sa, sb := NatToString(a), NatToString(b);
      assert sa == NatToString(a / 10) + [DigitChar(a % 10)];
      assert sb == NatToString(b / 10) + [DigitChar(b % 10)];
      assert sa[..|sa| - 1] == NatToString(a / 10);
      assert sb[..|sb| - 1] == NatToString(b / 10);
      assert DigitChar(a % 10) == sa[|sa| - 1] == sb[|sb| - 1] == DigitChar(b % 10);
      NatToStringInjective(a / 10, b / 10);
    }
  }

  /** The key of tab `tab`'s colour record: `"color_" + tab`. */
  function TabKey(tab: nat): (k: string)
    ensures |k| > |KeyPrefix| && k[..|KeyPrefix|] == KeyPrefix
    ensures forall i :: |KeyPrefix| <= i < |k| ==> '0' <= k[i] <= '9'
  {
    KeyPrefix + NatToString(tab)
  }

  /** Distinct tabs own distinct records: a write or delete for one tab's
      key never reaches another tab's record. */
  lemma TabKeyInjective(a: nat, b: nat)
    ensures TabKey(a) == TabKey(b) <==> a == b
  {
    if TabKey(a) == TabKey(b) {
      assert NatToString(a) == TabKey(a)[|KeyPrefix|..];
      assert NatToString(b) == TabKey(b)[|KeyPrefix|..];
      NatToStringInjective(a, b);
    }
  }
}
