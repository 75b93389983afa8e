// The text of idempotency and action keys: the string builders never collide.
module Keys {
  import opened Models
  import opened Engine
  import opened Stamps

  predicate NoColon(s: string) {
    forall i | 0 <= i < |s| :: s[i] != ':'
  }

  // A text splits in one way at its last colon.
  lemma LastColon(p: string, x: string, q: string, y: string)
    requires NoColon(x) && NoColon(y) && p + [':'] + x == q + [':'] + y
    ensures p == q && x == y
  {
    var s := p + [':'] + x;
    assert s[|p|] == ':' && s == q + [':'] + y && s[|q|] == ':';
    assert forall i | |p| < i < |s| :: s[i] == x[i - |p| - 1];
    assert forall i | |q| < i < |s| :: s[i] == y[i - |q| - 1];
    assert p == s[..|p|] && q == s[..|q|] && x == s[|p| + 1..] && y == s[|q| + 1..];
  }

  // ------------------------------------------------------------ action keys

  // Hour of the day with its date; the stamp's text up to its first colon.
  function DateHour(c: Civil): string {
    Digits(c.year, 4) + (['-'] + (Digits(c.month, 2) + (['-'] + (Digits(c.day, 2) + (['T'] + Digits(c.hour, 2))))))
  }

  // A UTC timestamp, cut at its colons.
  function IsoParts(c: Civil): string {
    DateHour(c) + [':'] + Digits(c.minute, 2) + [':'] + (Digits(c.second, 2) + Fraction(c.micro) + "+00") + [':'] + "00"
  }

  lemma IsoIsItsParts(c: Civil)
    ensures IsoParts(c) == Iso(c)
  {
    hide Digits, Fraction;
    assert Fraction(c.micro) + "+00:00" == Fraction(c.micro) + "+00" + [':'] + "00";
  }

  // The action key as stored. A reopen is stamped with a UTC instant.
  function KeyText(ak: ActionKey): string
    requires ak.ReopenKey? ==> InRange(ak.at)
  {
    match ak
    case CreateKey(key) => key + ":payment_link" + [':'] + "v1"
    case LateCancelKey(key, link) => key + ":payment_link.cancel" + [':'] + link
    case ReversalCancelKey(key) => key + ":payment_link:cancel" + [':'] + "reversal"
    case ReopenKey(key, at) => key + ":reopen:" + StampOf(at)
  }

  predicate PlainLink(ak: ActionKey) {
    ak.LateCancelKey? ==> NoColon(ak.link)
  }

  lemma {:induction false} DigitsHaveNoColon(n: nat, width: nat)
    ensures NoColon(Digits(n, width)) && |Digits(n, width)| == width
  {
    if width > 0 {
      DigitsHaveNoColon(n / 10, width - 1);
    }
  }

  // The pieces of a key around its last two colons.
  datatype Cut = Cut(front: string, middle: string, back: string) {
    function Text(): string {
      front + [':'] + middle + [':'] + back
    }
  }

  lemma CutsAreUnique(a: Cut, b: Cut)
    requires NoColon(a.middle) && NoColon(a.back) && NoColon(b.middle) && NoColon(b.back) && a.Text() == b.Text()
    ensures a == b
  {
    LastColon(a.front + [':'] + a.middle, a.back, b.front + [':'] + b.middle, b.back);
    LastColon(a.front, a.middle, b.front, b.middle);
  }

  function ZonedSecond(c: Civil): string {
    Digits(c.second, 2) + Fraction(c.micro) + "+00"
  }

  // Every key cut at its last two colons: the middle piece tells the kinds apart.
  function CutOf(ak: ActionKey): Cut
    requires ak.ReopenKey? ==> InRange(ak.at)
  {
    match ak
    case CreateKey(key) => Cut(key, "payment_link", "v1")
    case LateCancelKey(key, link) => Cut(key, "payment_link.cancel", link)
    case ReversalCancelKey(key) => Cut(key + ":payment_link", "cancel", "reversal")
    case ReopenKey(key, at) =>
      var c := CivilOf(at);
      Cut(key + ":reopen:" + (DateHour(c) + [':'] + Digits(c.minute, 2)), ZonedSecond(c), "00")
  }

  lemma CutIsText(ak: ActionKey)
    requires ak.ReopenKey? ==> InRange(ak.at)
    ensures CutOf(ak).Text() == KeyText(ak)
  {
    hide CivilOf, Digits, Fraction, DateHour, StampOf, ZonedSecond;
    match ak
    case CreateKey(key) => assert key + [':'] + "payment_link" == key + ":payment_link";
    case LateCancelKey(key, link) => assert key + [':'] + "payment_link.cancel" == key + ":payment_link.cancel";
    case ReversalCancelKey(key) => assert key + ":payment_link" + [':'] + "cancel" == key + ":payment_link:cancel";
    case ReopenKey(key, at) => ReopenIsText(key, at);
  }

  lemma ReopenIsText(key: Key, at: Time)
    requires InRange(at)
    ensures CutOf(ReopenKey(key, at)).Text() == KeyText(ReopenKey(key, at))
  {
    var c := CivilOf(at);
    IsoIsItsParts(c);
    hide CivilOf, Digits, Fraction, DateHour, Iso;
    assert key + ":reopen:" + (DateHour(c) + [':'] + Digits(c.minute, 2)) + [':'] + ZonedSecond(c) + [':'] + "00"
      == key + ":reopen:" + IsoParts(c);
  }

  lemma CutIsPlain(ak: ActionKey)
    requires PlainLink(ak) && (ak.ReopenKey? ==> InRange(ak.at))
    ensures NoColon(CutOf(ak).middle) && NoColon(CutOf(ak).back)
    ensures CutOf(ak).middle != ""
    ensures ('0' <= CutOf(ak).middle[0] <= '9') <==> ak.ReopenKey?
  {
    if ak.ReopenKey? {
      var c := CivilOf(ak.at);
      DigitsHaveNoColon(c.second, 2);
      DigitsHaveNoColon(c.micro, 6);
      FirstDigit(c.second);
      hide CivilOf, Digits;
    }
  }

  lemma FirstDigit(n: nat)
    ensures '0' <= Digits(n, 2)[0] <= '9'
  {
    assert Digits(n / 10, 1) == Digits(n / 100, 0) + [Digit(n / 10 % 10)];
  }

  // Distinct actions have distinct keys, as long as link ids contain no colon; logical keys may contain any.
  lemma KeyTextsAreDistinct(a: ActionKey, b: ActionKey)
    requires PlainLink(a) && PlainLink(b)
    requires (a.ReopenKey? ==> InRange(a.at)) && (b.ReopenKey? ==> InRange(b.at))
    ensures KeyText(a) == KeyText(b) <==> a == b
  {
    if KeyText(a) == KeyText(b) {
      CutIsText(a);
      CutIsText(b);
      CutIsPlain(a);
      CutIsPlain(b);
      hide KeyText, CivilOf, Digits;
      CutsAreUnique(CutOf(a), CutOf(b));
      assert |"payment_link.cancel"| == 19 && |"payment_link"| == 12 && |"cancel"| == 6;
      if a.ReopenKey? {
        ReopensAreDistinct(a.key, a.at, b.key, b.at);
      } else if a.ReversalCancelKey? {
        assert a.key == CutOf(a).front[..|a.key|] && b.key == CutOf(b).front[..|b.key|];
      }
    }
  }

  // The condition on link ids is needed: with a colon inside, a cancel's key can be another case's create key.
  lemma ColonsCollide()
    ensures KeyText(LateCancelKey("inv", "x:payment_link:v1")) == KeyText(CreateKey("inv:payment_link.cancel:x"))
  {
    assert "inv" + ":payment_link.cancel" + [':'] + "x:payment_link:v1"
      == "inv:payment_link.cancel:x" + ":payment_link" + [':'] + "v1";
  }

  const CREATE_TAIL: string := ":payment_link:v1"

  // A link id whose text, after the colon before it, ends as a create key does, and the case it would name.
  predicate ReadsAsCreate(key: Key, link: LinkId, other: Key) {
    && |link| >= 15
    && ([':'] + link)[|link| - 15..] == CREATE_TAIL
    && other == key + ":payment_link.cancel" + ([':'] + link)[..|link| - 15]
  }

  // Exactly which cancel keys are create keys: those of link ids ending in "payment_link:v1", as a whole or after a
  // colon, and then of one other case alone. A link id without a colon is never among them.
  lemma CancelCollides(key: Key, link: LinkId, other: Key)
    ensures KeyText(LateCancelKey(key, link)) == KeyText(CreateKey(other)) <==> ReadsAsCreate(key, link, other)
    ensures NoColon(link) ==> !ReadsAsCreate(key, link, other)
  {
    var head, tail := key + ":payment_link.cancel", [':'] + link;
    assert CREATE_TAIL[0] == ':' && CREATE_TAIL[13] == ':' && |CREATE_TAIL| == 16;
    assert KeyText(LateCancelKey(key, link)) == head + tail;
    assert KeyText(CreateKey(other)) == other + CREATE_TAIL by {
      assert ":payment_link" + [':'] + "v1" == CREATE_TAIL;
    }
    if |link| >= 15 {
      TailsMeet(head, tail, other, CREATE_TAIL);
    } else {
      ShortTail(key, tail, other);
    }
  }

  // A shorter tail would have the create key's first colon fall inside the word that has none.
  lemma ShortTail(key: Key, tail: string, other: Key)
    requires 1 <= |tail| < 16
    ensures key + ":payment_link.cancel" + tail != other + CREATE_TAIL
  {
    var word := ":payment_link.cancel";
    var a, b := key + word + tail, other + CREATE_TAIL;
    assert forall i | 1 <= i < |word| :: word[i] != ':';
    if |a| == |b| {
      assert a[|other|] == word[|other| - |key|] && b[|other|] == ':';
    }
  }

  // Two texts with the same end are the same exactly when one front extends the other.
  lemma TailsMeet(a: string, x: string, b: string, y: string)
    requires |x| >= |y|
    ensures a + x == b + y <==> x[|x| - |y|..] == y && b == a + x[..|x| - |y|]
  {
    var n := |x| - |y|;
    assert x == x[..n] + x[n..];
    if a + x == b + y {
      assert a + x == (a + x[..n]) + x[n..];
      assert b == (b + y)[..|b|] && y == (b + y)[|b|..];
      assert a + x[..n] == (a + x)[..|b|] && x[n..] == (a + x)[|b|..];
    }
  }

  lemma ReopensAreDistinct(k: Key, t: Time, k': Key, t': Time)
    requires InRange(t) && InRange(t') && CutOf(ReopenKey(k, t)) == CutOf(ReopenKey(k', t'))
    ensures k == k' && t == t'
  {
    var c, c' := CivilOf(t), CivilOf(t');
    var dh, dh' := DateHour(c), DateHour(c');
    DateHourShape(c);
    DateHourShape(c');
    DigitsHaveNoColon(c.minute, 2);
    DigitsHaveNoColon(c'.minute, 2);
    hide Digits, CivilOf, DateHour, InRange;
    ReopenFront(k, dh, Digits(c.minute, 2));
    ReopenFront(k', dh', Digits(c'.minute, 2));
    LastColon(k + ":reopen" + [':'] + dh, Digits(c.minute, 2), k' + ":reopen" + [':'] + dh', Digits(c'.minute, 2));
    LastColon(k + ":reopen", dh, k' + ":reopen", dh');
    SameFront(k, k');
    SameParts(t, t');
  }

  lemma ReopenFront(k: Key, dateHour: string, minute: string)
    ensures k + ":reopen:" + (dateHour + [':'] + minute) == k + ":reopen" + [':'] + dateHour + [':'] + minute
  {
    assert ":reopen:" == ":reopen" + [':'];
  }

  lemma SameFront(k: Key, k': Key)
    requires k + ":reopen" == k' + ":reopen"
    ensures k == k'
  {
    assert k == (k + ":reopen")[..|k|] && k' == (k' + ":reopen")[..|k'|];
  }

  lemma DateHourShape(c: Civil)
    ensures NoColon(DateHour(c))
  {
    DigitsHaveNoColon(c.year, 4);
    DigitsHaveNoColon(c.month, 2);
    DigitsHaveNoColon(c.day, 2);
    DigitsHaveNoColon(c.hour, 2);
    hide Digits;
  }

  lemma SameParts(t: Time, t': Time)
    requires InRange(t) && InRange(t')
    requires var c, c' := CivilOf(t), CivilOf(t');
      DateHour(c) == DateHour(c') && Digits(c.minute, 2) == Digits(c'.minute, 2) && ZonedSecond(c) == ZonedSecond(c')
    ensures t == t'
  {
    var c, c' := CivilOf(t), CivilOf(t');
    IsoIsItsParts(c);
    IsoIsItsParts(c');
    StampOrder(t, t');
    hide CivilOf, Digits, Fraction, DateHour;
  }

  // ------------------------------------------------------- idempotency keys

  function NatText(n: nat): string {
    if n < 10 then [Digit(n)] else NatText(n / 10) + [Digit(n % 10)]
  }

  function IntText(n: int): string {
    if n < 0 then "-" + NatText(-n) else NatText(n)
  }

  lemma {:induction false} NatTextShape(n: nat)
    ensures NatText(n) != "" && forall i | 0 <= i < |NatText(n)| :: '0' <= NatText(n)[i] <= '9'
  {
    if n >= 10 {
      NatTextShape(n / 10);
    }
  }

  lemma {:induction false} NatTextIsInjective(n: nat, m: nat)
    requires NatText(n) == NatText(m)
    ensures n == m
  {
    NatTextShape(n / 10);
    NatTextShape(m / 10);
    if n >= 10 && m >= 10 {
      assert NatText(n)[..|NatText(n)| - 1] == NatText(n / 10) && NatText(m)[..|NatText(m)| - 1] == NatText(m / 10);
      NatTextIsInjective(n / 10, m / 10);
      assert NatText(n)[|NatText(n)| - 1] == Digit(n % 10) && NatText(m)[|NatText(m)| - 1] == Digit(m % 10);
    } else {
      assert |NatText(n)| == |NatText(m)|;
    }
  }

  // The text an idempotency key is the hash of.
  function CreateKeyText(reference: string, amount: int): string {
    "payment_link:v1:" + reference + [':'] + IntText(amount)
  }

  // Different recoveries never share an idempotency key's text, whatever their references contain.
  lemma CreateKeyTextsAreDistinct(reference: string, amount: int, reference': string, amount': int)
    ensures CreateKeyText(reference, amount) == CreateKeyText(reference', amount') <==>
      reference == reference' && amount == amount'
  {
    if CreateKeyText(reference, amount) == CreateKeyText(reference', amount') {
      var m, m' := if amount < 0 then -amount else amount, if amount' < 0 then -amount' else amount';
      NatTextShape(m);
      NatTextShape(m');
      var p, p' := "payment_link:v1:" + reference, "payment_link:v1:" + reference';
      LastColon(p, IntText(amount), p', IntText(amount'));
      assert reference == p[16..] && reference' == p'[16..];
      if amount < 0 {
        assert IntText(amount)[0] == '-';
        assert IntText(amount)[1..] == NatText(m);
      }
      if amount' < 0 {
        assert IntText(amount')[0] == '-';
        assert IntText(amount')[1..] == NatText(m');
      }
      NatTextIsInjective(m, m');
    }
  }
}
