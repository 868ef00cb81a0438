/**
 * Phone normalisation (`normalizePhone`): the recipient identity used to
 * address messages and to compare an inbound sender with pending follow-ups.
 * Keeps only the digits; a leading trunk prefix `0` becomes country code `62`.
 */
module Phone {
  import opened Text

  const CountryCode: string := "62"

  /** The chat-id suffix the bot appends to a normalised number. */
  const ContactSuffix: string := "@c.us"

  function Normalize(phone: string): (r: string)
    ensures AllDigits(r)
    ensures r == [] || r[0] != '0'
  {
    var nums := Digits(phone);
    if |nums| > 0 && nums[0] == '0' then CountryCode + nums[1..] else nums
  }

  /** The chat id the bot sends to: the normalised number with `@c.us`. */
  function ChatId(phone: string): string
  {
    Normalize(phone) + ContactSuffix
  }

  /** A chat id is the normalised number followed by the contact suffix. */
  lemma ChatIdShape(phone: string)
    ensures |ChatId(phone)| >= |ContactSuffix|
    ensures ChatId(phone)[|ChatId(phone)| - |ContactSuffix|..] == ContactSuffix
    ensures ChatId(phone)[..|ChatId(phone)| - |ContactSuffix|] == Normalize(phone)
  {
  }

  /** The result is the digit string, with a leading `0` turned into `62`. */
  lemma NormalizeDigits(phone: string, rest: string)
    ensures Digits(phone) == "0" + rest ==> Normalize(phone) == CountryCode + rest
    ensures (Digits(phone) == [] || Digits(phone)[0] != '0') ==> Normalize(phone) == Digits(phone)
  {
    if Digits(phone) == "0" + rest {
      assert Digits(phone)[1..] == rest;
    }
  }

  /**
   * Two spellings of one number, one with the trunk prefix and one with the
   * country code ("0812 ..." and "+62 812 ..."), normalise identically.
   */
  lemma TrunkAndCountryCodeAgree(local: string, international: string, subscriber: string)
    requires Digits(local) == "0" + subscriber
    requires Digits(international) == CountryCode + subscriber
    ensures Normalize(local) == Normalize(international)
  {
    NormalizeDigits(local, subscriber);
    NormalizeDigits(international, subscriber);
  }

  lemma {:induction false} NormalizeIdempotent(phone: string)
    ensures Normalize(Normalize(phone)) == Normalize(phone)
  {
    DigitsOfDigits(Normalize(phone));
  }

  /**
   * A chat id normalises back to its number, so an entry stored under
   * `ChatId(p)` is found again by a sender whose number normalises to that of `p`.
   */
  lemma {:induction false} ChatIdNormalizes(phone: string)
    ensures Normalize(ChatId(phone)) == Normalize(phone)
  {
    var n := Normalize(phone);
    DigitsAppend(n, ContactSuffix);
    DigitsOfDigits(n);
    DigitsOfNonDigits(ContactSuffix);
    assert Digits(ChatId(phone)) == n;
  }
}
