/** The Telegram messages the checkers send; delivery itself is outside the model. */
module Telegram {
  /** The product page the single-URL checker polls. */
  const ProductUrl: string := "https://www.amazon.de/Nintendo-Switch-Mario-Kart-World-Set/dp/B0F2J4SYJ2"

  /** One notification, by kind. */
  datatype Note = BackupEntered | Recovered | UrlAvailable(url: string) | ProductAvailable

  /** The symbols the messages start with. */
  const Warning: string := "⚠️ "
  const CheckMark: string := "✅ "
  const Package: string := "📦 "
  /** What every "Available" alert says before its URL. */
  const AvailablePrefix: string := Package + "Available! "

  /** The exact text each notification carries. */
  function Text(n: Note): string
  {
    match n
    case BackupEntered => Warning + "Amazon check failed multiple times. Entering backup mode."
    case Recovered => CheckMark + "Recovered from backup mode. Amazon is responding again."
    case UrlAvailable(url) => AvailablePrefix + url
    case ProductAvailable => CheckMark + "Das Produkt ist jetzt verfügbar auf Amazon! " + ProductUrl
  }

  /** The symbol a notification's text starts with. */
  function Symbol(n: Note): char
  {
    match n
    case BackupEntered => '⚠'
    case Recovered => '✅'
    case UrlAvailable(_) => '📦'
    case ProductAvailable => '✅'
  }

  /** Each text starts with its symbol. */
  lemma TextStartsWithSymbol(n: Note)
    ensures |Text(n)| > 0 && Text(n)[0] == Symbol(n)
  {
  }

  /** Two built "Available" texts are equal exactly when they are for the same URL. */
  lemma UrlTextsDiffer(u: string, v: string)
    ensures Text(UrlAvailable(u)) == Text(UrlAvailable(v)) <==> u == v
  {
    assert (AvailablePrefix + u)[|AvailablePrefix|..] == u;
    assert (AvailablePrefix + v)[|AvailablePrefix|..] == v;
  }

  /** The recovery message and the product message share their symbol but not their length. */
  lemma CheckMarkTextsDiffer()
    ensures |Text(Recovered)| != |Text(ProductAvailable)|
  {
  }

  /**
   * The texts the code builds tell the notifications apart: the kinds begin
   * with different symbols, the two that begin with a check mark differ in
   * length, and two "Available" alerts differ exactly when their URLs do.
   * This is about the built strings, not about what Telegram delivers.
   */
  lemma TextsDistinguishNotes(m: Note, n: Note)
    ensures Text(m) == Text(n) <==> m == n
  {
    if m.UrlAvailable? && n.UrlAvailable? {
      UrlTextsDiffer(m.url, n.url);
    } else if Symbol(m) != Symbol(n) {
      TextStartsWithSymbol(m);
      TextStartsWithSymbol(n);
    } else if m != n {
      CheckMarkTextsDiffer();
    }
  }

  /** Number of times `n` was sent. */
  function Sent(notes: seq<Note>, n: Note): nat
  {
    multiset(notes)[n]
  }
}
