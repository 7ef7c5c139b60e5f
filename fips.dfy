/**
 * The `fips_postalcode` table of scripts/functions.js: two-digit state FIPS
 * codes to two-letter postal codes, for the 50 states, the District of
 * Columbia, Puerto Rico and the Virgin Islands.
 */
module FipsTable {
  import opened Wrappers

  /** The table, one entry per line of the object literal, written on the two characters of each side. */
  function Letters(digits: (char, char)): Option<(char, char)>
  {
    match digits
    case ('0', '1') => Some(('A', 'L'))
    case ('0', '2') => Some(('A', 'K'))
    case ('0', '4') => Some(('A', 'Z'))
    case ('0', '5') => Some(('A', 'R'))
    case ('0', '6') => Some(('C', 'A'))
    case ('0', '8') => Some(('C', 'O'))
    case ('0', '9') => Some(('C', 'T'))
    case ('1', '0') => Some(('D', 'E'))
    case ('1', '1') => Some(('D', 'C'))
    case ('1', '2') => Some(('F', 'L'))
    case ('1', '3') => Some(('G', 'A'))
    case ('1', '5') => Some(('H', 'I'))
    case ('1', '6') => Some(('I', 'D'))
    case ('1', '7') => Some(('I', 'L'))
    case ('1', '8') => Some(('I', 'N'))
    case ('1', '9') => Some(('I', 'A'))
    case ('2', '0') => Some(('K', 'S'))
    case ('2', '1') => Some(('K', 'Y'))
    case ('2', '2') => Some(('L', 'A'))
    case ('2', '3') => Some(('M', 'E'))
    case ('2', '4') => Some(('M', 'D'))
    case ('2', '5') => Some(('M', 'A'))
    case ('2', '6') => Some(('M', 'I'))
    case ('2', '7') => Some(('M', 'N'))
    case ('2', '8') => Some(('M', 'S'))
    case ('2', '9') => Some(('M', 'O'))
    case ('3', '0') => Some(('M', 'T'))
    case ('3', '1') => Some(('N', 'E'))
    case ('3', '2') => Some(('N', 'V'))
    case ('3', '3') => Some(('N', 'H'))
    case ('3', '4') => Some(('N', 'J'))
    case ('3', '5') => Some(('N', 'M'))
    case ('3', '6') => Some(('N', 'Y'))
    case ('3', '7') => Some(('N', 'C'))
    case ('3', '8') => Some(('N', 'D'))
    case ('3', '9') => Some(('O', 'H'))
    case ('4', '0') => Some(('O', 'K'))
    case ('4', '1') => Some(('O', 'R'))
    case ('4', '2') => Some(('P', 'A'))
    case ('4', '4') => Some(('R', 'I'))
    case ('4', '5') => Some(('S', 'C'))
    case ('4', '6') => Some(('S', 'D'))
    case ('4', '7') => Some(('T', 'N'))
    case ('4', '8') => Some(('T', 'X'))
    case ('4', '9') => Some(('U', 'T'))
    case ('5', '0') => Some(('V', 'T'))
    case ('5', '1') => Some(('V', 'A'))
    case ('5', '3') => Some(('W', 'A'))
    case ('5', '4') => Some(('W', 'V'))
    case ('5', '5') => Some(('W', 'I'))
    case ('5', '6') => Some(('W', 'Y'))
    case ('7', '2') => Some(('P', 'R'))
    case ('7', '8') => Some(('V', 'I'))
    case _ => None
  }

  /** The table read from right to left. */
  function Digits(letters: (char, char)): Option<(char, char)>
  {
    match letters
    case ('A', 'L') => Some(('0', '1'))
    case ('A', 'K') => Some(('0', '2'))
    case ('A', 'Z') => Some(('0', '4'))
    case ('A', 'R') => Some(('0', '5'))
    case ('C', 'A') => Some(('0', '6'))
    case ('C', 'O') => Some(('0', '8'))
    case ('C', 'T') => Some(('0', '9'))
    case ('D', 'E') => Some(('1', '0'))
    case ('D', 'C') => Some(('1', '1'))
    case ('F', 'L') => Some(('1', '2'))
    case ('G', 'A') => Some(('1', '3'))
    case ('H', 'I') => Some(('1', '5'))
    case ('I', 'D') => Some(('1', '6'))
    case ('I', 'L') => Some(('1', '7'))
    case ('I', 'N') => Some(('1', '8'))
    case ('I', 'A') => Some(('1', '9'))
    case ('K', 'S') => Some(('2', '0'))
    case ('K', 'Y') => Some(('2', '1'))
    case ('L', 'A') => Some(('2', '2'))
    case ('M', 'E') => Some(('2', '3'))
    case ('M', 'D') => Some(('2', '4'))
    case ('M', 'A') => Some(('2', '5'))
    case ('M', 'I') => Some(('2', '6'))
    case ('M', 'N') => Some(('2', '7'))
    case ('M', 'S') => Some(('2', '8'))
    case ('M', 'O') => Some(('2', '9'))
    case ('M', 'T') => Some(('3', '0'))
    case ('N', 'E') => Some(('3', '1'))
    case ('N', 'V') => Some(('3', '2'))
    case ('N', 'H') => Some(('3', '3'))
    case ('N', 'J') => Some(('3', '4'))
    case ('N', 'M') => Some(('3', '5'))
    case ('N', 'Y') => Some(('3', '6'))
    case ('N', 'C') => Some(('3', '7'))
    case ('N', 'D') => Some(('3', '8'))
    case ('O', 'H') => Some(('3', '9'))
    case ('O', 'K') => Some(('4', '0'))
    case ('O', 'R') => Some(('4', '1'))
    case ('P', 'A') => Some(('4', '2'))
    case ('R', 'I') => Some(('4', '4'))
    case ('S', 'C') => Some(('4', '5'))
    case ('S', 'D') => Some(('4', '6'))
    case ('T', 'N') => Some(('4', '7'))
    case ('T', 'X') => Some(('4', '8'))
    case ('U', 'T') => Some(('4', '9'))
    case ('V', 'T') => Some(('5', '0'))
    case ('V', 'A') => Some(('5', '1'))
    case ('W', 'A') => Some(('5', '3'))
    case ('W', 'V') => Some(('5', '4'))
    case ('W', 'I') => Some(('5', '5'))
    case ('W', 'Y') => Some(('5', '6'))
    case ('P', 'R') => Some(('7', '2'))
    case ('V', 'I') => Some(('7', '8'))
    case _ => None
  }

  lemma DigitsInvertLetters(digits: (char, char))
    requires Letters(digits).Some?
    ensures Digits(Letters(digits).value) == Some(digits)
  {
  }

  lemma LettersInvertDigits(letters: (char, char))
    requires Digits(letters).Some?
    ensures Letters(Digits(letters).value) == Some(letters)
  {
  }

  /** `fips_postalcode[fips]`: the postal code of a state FIPS code, None (`undefined`) for any other string. */
  function PostalCode(fips: string): (r: Option<string>)
    ensures r.Some? ==> |fips| == 2 && |r.value| == 2 && FipsOfPostalCode(r.value) == Some(fips)
  {
    if |fips| != 2 then None
    else
      match Letters((fips[0], fips[1]))
      case None => None
      case Some(code) =>
        DigitsInvertLetters((fips[0], fips[1]));
        assert fips == [fips[0], fips[1]];
        Some([code.0, code.1])
  }

  /** The state FIPS code of a postal code in the table. */
  function FipsOfPostalCode(code: string): Option<string>
  {
    if |code| != 2 then None
    else
      match Digits((code[0], code[1]))
      case None => None
      case Some(digits) => Some([digits.0, digits.1])
  }

  /** No postal code appears twice in the table. */
  lemma PostalCodesDistinct(a: string, b: string)
    requires PostalCode(a).Some? && PostalCode(a) == PostalCode(b)
    ensures a == b
  {
  }

  /** The table is one-to-one: a code is the postal code of a FIPS code exactly when it maps back to it. */
  lemma PostalCodeIffFips(fips: string)
    ensures forall code :: PostalCode(fips) == Some(code) <==> FipsOfPostalCode(code) == Some(fips)
  {
    forall code | FipsOfPostalCode(code) == Some(fips) ensures PostalCode(fips) == Some(code) {
      LettersInvertDigits((code[0], code[1]));
      assert code == [code[0], code[1]];
    }
  }
}
