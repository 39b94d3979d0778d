/**
 * The textual UUID form the driver insists on before it fetches a resource:
 * 32 hexadecimal digits in groups of 8-4-4-4-12 separated by hyphens
 * (section 4 of RFC 9562).
 */
module Uuids {

  predicate IsHexDigit(c: char) {
    '0' <= c <= '9' || 'a' <= c <= 'f' || 'A' <= c <= 'F'
  }

  predicate IsHyphenPosition(i: int) {
    i == 8 || i == 13 || i == 18 || i == 23
  }

  predicate ValidUuid(s: string) {
    |s| == 36 &&
    forall i :: 0 <= i < 36 ==> if IsHyphenPosition(i) then s[i] == '-' else IsHexDigit(s[i])
  }
}
