/** Values shared by the components of the chat application: an optional value,
    a chat-history entry, and two small string utilities (cutting a fixed prefix
    and suffix off a string, and the decimal rendering of a number). */
module Common {

  datatype Option<+T> = None | Some(value: T) {
    /** The value, or `default` when there is none. */
    function GetOr(default: T): T {
      match this
      case Some(v) => v
      case None => default
    }
  }

  /** One element of `chatHistory`: `{ user, message }`. The `user` field is a
      plain string; the application writes only "User" and "Avatar" into it. */
  datatype ChatEntry = ChatEntry(user: string, message: string)

  const UserSpeaker: string := "User"
  const AvatarSpeaker: string := "Avatar"

  function UserEntry(message: string): ChatEntry {
    ChatEntry(UserSpeaker, message)
  }

  function AvatarEntry(message: string): ChatEntry {
    ChatEntry(AvatarSpeaker, message)
  }

  /** The number of entries in a history written by `speaker`. */
  function SpeakerCount(history: seq<ChatEntry>, speaker: string): (n: nat)
    ensures n <= |history|
  {
    if history == [] then 0
    else SpeakerCount(history[..|history| - 1], speaker) + (if history[|history| - 1].user == speaker then 1 else 0)
  }

  /** The text of `s` between the fixed `prefix` and `suffix`, if `s` has both. */
  function Between(s: string, prefix: string, suffix: string): (r: Option<string>)
    ensures r.Some? ==> s == prefix + r.value + suffix
  {
    if |prefix| + |suffix| <= |s| && s[..|prefix|] == prefix && s[|s| - |suffix|..] == suffix then
      var mid := s[|prefix|..|s| - |suffix|];
      assert s == s[..|prefix|] + mid + s[|s| - |suffix|..];
      Some(mid)
    else
      None
  }

  /** Wrapping a text in a prefix and a suffix can be undone by `Between`. */
  lemma BetweenRoundTrip(prefix: string, x: string, suffix: string)
    ensures Between(prefix + x + suffix, prefix, suffix) == Some(x)
  {
  }

  predicate IsDigit(c: char) {
    '0' <= c <= '9'
  }

  function DigitChar(d: nat): (c: char)
    requires d < 10
    ensures IsDigit(c) && (c as int) - ('0' as int) == d
  {
    (('0' as int) + d) as char
  }

  /** `String(n)` for a non-negative integer: its decimal digits, no leading zero. */
  function Decimal(n: nat): (r: string)
    ensures |r| >= 1
    ensures forall i :: 0 <= i < |r| ==> IsDigit(r[i])
    ensures r[0] == '0' ==> n == 0
  {
    if n < 10 then [DigitChar(n)] else Decimal(n / 10) + [DigitChar(n % 10)]
  }

  /** The number a string of decimal digits denotes. */
  function DigitsValue(s: string): (value: int)
  {
    if s == [] then 0 else 10 * DigitsValue(s[..|s| - 1]) + ((s[|s| - 1] as int) - ('0' as int))
  }

  /** Reading back the decimal rendering of `n` gives `n`. */
  lemma {:induction false} DecimalRoundTrip(n: nat)
    ensures DigitsValue(Decimal(n)) == n
  {
    var r := Decimal(n);
    if n >= 10 {
      DecimalRoundTrip(n / 10);
      assert r[..|r| - 1] == Decimal(n / 10);
    }
  }

  /** The three-digit numbers are exactly those written with three digits, and
      their first digit is the hundreds. */
  lemma DecimalThreeDigits(n: nat)
    ensures |Decimal(n)| == 3 <==> 100 <= n <= 999
    ensures 100 <= n <= 999 ==> Decimal(n)[0] == DigitChar(n / 100)
  {
    if n >= 10 {
      assert Decimal(n) == Decimal(n / 10) + [DigitChar(n % 10)];
      if n >= 100 {
        assert n / 10 / 10 == n / 100;
        assert Decimal(n / 10) == Decimal(n / 100) + [DigitChar(n / 10 % 10)];
        if n >= 1000 {
          assert n / 100 / 10 == n / 1000;
          assert Decimal(n / 100) == Decimal(n / 1000) + [DigitChar(n / 100 % 10)];
        }
      }
    }
  }

  /** Different numbers have different decimal renderings. */
  lemma DecimalInjective(m: nat, n: nat)
    requires Decimal(m) == Decimal(n)
    ensures m == n
  {
    DecimalRoundTrip(m);
    DecimalRoundTrip(n);
  }
}
