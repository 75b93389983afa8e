// The provider adapter's retry loop (app/gateway.py:96-211) over a network that may lose any response, against a
// provider that honours idempotency keys; and the in-memory provider used for demos (app/gateway.py:67-93).
module Gateway {
  import opened Base
  import opened Keys
  import opened Models

  type IdempotencyKey = string

  datatype Link = Link(id: LinkId, url: string, status: LinkStatus)

  // What one HTTP exchange brings back; a body carries the link's fields, or lacks some of them.
  datatype Reply =
    | Body(link: Option<Link>)
    | NonObject
    | NotJson
    | HttpError(code: int)
    | TransportError
    | TimedOut

  datatype Outcome<+T> = Success(value: T) | Retryable | Rejected

  predicate RetryableStatus(code: int) {
    code == 408 || code == 425 || code == 429 || code == 500 || code == 502 || code == 503 || code == 504
  }

  function Classify(reply: Reply): Outcome<Option<Link>> {
    match reply
    case Body(link) => Success(link)
    case NonObject => Rejected
    case NotJson => Rejected
    case HttpError(code) => if RetryableStatus(code) then Retryable else Rejected
    case TransportError => Retryable
    case TimedOut => Retryable
  }

  // Replies that a later try may better: nothing came back, or the server asked to wait or was in trouble itself.
  predicate Passing(reply: Reply) {
    || reply.TransportError? || reply.TimedOut?
    || (reply.HttpError? && reply.code in {408, 425, 429, 500, 502, 503, 504})
  }

  // What an exchange amounts to: an answer, something to try again, or the end of it.
  predicate Means(reply: Reply, outcome: Outcome<Option<Link>>) {
    && (outcome.Retryable? <==> Passing(reply))
    && (outcome.Success? <==> reply.Body?)
    && (reply.Body? ==> outcome == Success(reply.link))
  }

  // And what it means for whoever asked for a link: a body that lacks the link's fields is the end of it too.
  predicate MeansLink(reply: Reply, link: Outcome<Link>) {
    && (link.Retryable? <==> Passing(reply))
    && (link.Success? <==> reply.Body? && reply.link.Some?)
    && (link.Success? ==> reply.link == Some(link.value))
  }

  // What becomes of a request: the provider's own answer arrives, or something else does, whether or not the
  // provider carried the request out.
  datatype Fate = Delivered | Disturbed(executed: bool, reply: Reply)

  // A provider that honours idempotency keys: one link per key, however often the key is sent.
  class Provider {
    var links: map<IdempotencyKey, Link>

    constructor ()
      ensures links == map[]
    {
      links := map[];
    }

    method Execute(key: IdempotencyKey, newLink: Link) returns (link: Link)
      modifies this
      ensures links == if key in old(links) then old(links) else old(links)[key := newLink]
      ensures key in links && link == links[key]
    {
      if key !in links {
        links := links[key := newLink];
      }
      link := links[key];
    }
  }

  // At most one link more than before, under this key; every other link stands.
  ghost predicate OneMore(before: map<IdempotencyKey, Link>, after: map<IdempotencyKey, Link>, key: IdempotencyKey) {
    && before.Keys <= after.Keys <= before.Keys + {key}
    && forall k | k in before :: after[k] == before[k]
  }

  type Attempts = n: nat | n >= 1 witness 1

  function Pow2(n: nat): nat {
    if n == 0 then 1 else 2 * Pow2(n - 1)
  }

  // Total back-off slept once `calls` calls have been made.
  function SleptAfter(backoff: real, calls: nat): real
    requires calls >= 1
  {
    backoff * ((Pow2(calls - 1) - 1) as real)
  }

  lemma SleptStep(backoff: real, calls: nat)
    requires calls >= 1
    ensures SleptAfter(backoff, calls + 1) == SleptAfter(backoff, calls) + backoff * (Pow2(calls - 1) as real)
  {
    var x, y := (Pow2(calls - 1) - 1) as real, Pow2(calls - 1) as real;
    assert Pow2(calls) - 1 == Pow2(calls - 1) - 1 + Pow2(calls - 1);
    assert backoff * (x + y) == backoff * x + backoff * y;
  }

  class RazorpayPaymentLinkGateway {
    const maxAttempts: Attempts
    const backoff: real
    const provider: Provider
    const fate: nat -> Fate            // what happens to each call ever made
    const newLink: nat -> Link           // the link the provider would create for it
    const digest: string -> string     // the key's hash

    var calls: seq<IdempotencyKey>
    var slept: real

    constructor (attempts: int, backoff: real, provider: Provider, fate: nat -> Fate, newLink: nat -> Link,
                 digest: string -> string)
      ensures maxAttempts == Max(1, attempts) && this.backoff == backoff && this.provider == provider
      ensures this.fate == fate && this.newLink == newLink && this.digest == digest
      ensures calls == [] && slept == 0.0
    {
      maxAttempts := Max(1, attempts);
      this.backoff, this.provider, this.fate, this.newLink, this.digest := backoff, provider, fate, newLink, digest;
      calls, slept := [], 0.0;
    }

    method Attempt(key: IdempotencyKey) returns (outcome: Outcome<Option<Link>>)
      modifies this`calls, provider
      ensures calls == old(calls) + [key]
      ensures provider.links == old(provider.links)
           || (key !in old(provider.links) && provider.links == old(provider.links)[key := newLink(|old(calls)|)])
      ensures fate(|old(calls)|).Delivered? ==> key in provider.links && outcome == Success(Some(provider.links[key]))
      ensures fate(|old(calls)|).Disturbed? ==> Means(fate(|old(calls)|).reply, outcome)
    {
      var f := fate(|calls|);
      if f.Delivered? || f.executed {
        var link := provider.Execute(key, newLink(|calls|));
        outcome := Success(Some(link));
      }
      if f.Disturbed? {
        outcome := Classify(f.reply);
      }
      calls := calls + [key];
    }

    // Only a transient outcome is tried again, and only while attempts last.
    ghost predicate Retried(from: nat, n: nat) {
      forall i | from <= i < from + n - 1 :: fate(i).Disturbed? && Passing(fate(i).reply)
    }

    method Request(key: IdempotencyKey) returns (outcome: Outcome<Option<Link>>, ghost n: nat)
      modifies this`calls, this`slept, provider
      ensures 1 <= n <= maxAttempts && calls == old(calls) + seq(n, _ => key)
      ensures Retried(|old(calls)|, n)
      ensures outcome.Retryable? ==> n == maxAttempts
      ensures slept == old(slept) + SleptAfter(backoff, n)
      ensures OneMore(old(provider.links), provider.links, key)
      ensures fate(|old(calls)| + n - 1).Delivered? ==>
        key in provider.links && outcome == Success(Some(provider.links[key]))
      ensures fate(|old(calls)| + n - 1).Disturbed? ==> Means(fate(|old(calls)| + n - 1).reply, outcome)
    {
      n := 0;
      for attempt := 1 to maxAttempts + 1
        invariant n == attempt - 1 && calls == old(calls) + seq(n, _ => key)
        invariant attempt <= maxAttempts
        invariant forall i | |old(calls)| <= i < |old(calls)| + n ::
          fate(i).Disturbed? && Passing(fate(i).reply)
        invariant slept == old(slept) + if n == 0 then 0.0 else SleptAfter(backoff, n) + backoff * (Pow2(n - 1) as real)
        invariant OneMore(old(provider.links), provider.links, key)
      {
        if n > 0 {
          SleptStep(backoff, n);
        }
        outcome := Attempt(key);
        n := n + 1;
        if !outcome.Retryable? || attempt == maxAttempts {
          break;
        }
        slept := slept + backoff * (Pow2(attempt - 1) as real);
      }
    }

    // One key for every attempt at the same link.
    function KeyFor(reference: string, amount: int): IdempotencyKey {
      digest(CreateKeyText(reference, amount))
    }

    // Whatever the network does: at most maxAttempts calls, all with one key, none after a success or a permanent
    // error, and at most one link at the provider.
    method CreatePaymentLink(reference: string, amount: int) returns (link: Outcome<Link>, ghost n: nat)
      modifies this`calls, this`slept, provider
      ensures var key := KeyFor(reference, amount);
        && 1 <= n <= maxAttempts && calls == old(calls) + seq(n, _ => key)
        && OneMore(old(provider.links), provider.links, key)
        && (fate(|old(calls)| + n - 1).Delivered? ==> key in provider.links && link == Success(provider.links[key]))
        && (fate(|old(calls)| + n - 1).Disturbed? ==> MeansLink(fate(|old(calls)| + n - 1).reply, link))
      ensures Retried(|old(calls)|, n)
      ensures link.Retryable? ==> n == maxAttempts
      ensures slept == old(slept) + SleptAfter(backoff, n)
    {
      var payload;
      payload, n := Request(KeyFor(reference, amount));
      match payload
      case Retryable => link := Retryable;
      case Rejected => link := Rejected;
      case Success(fields) => link := if fields.Some? then Success(fields.value) else Rejected;
    }
  }

  // ------------------------------------------------------- the demo provider

  class FakeRazorpayGateway {
    var links: map<LinkId, LinkStatus>
    var created: nat
    var cancelled: nat

    ghost function CancelledLinks(): set<LinkId>
      reads this
    {
      set l | l in links && links[l] == Cancelled
    }

    ghost predicate Valid()
      reads this
    {
      && created == |links|
      && cancelled == |CancelledLinks()|
      && forall l | l in links :: links[l] == Issued || links[l] == Cancelled
    }

    constructor ()
      ensures Valid() && links == map[]
    {
      links, created, cancelled := map[], 0, 0;
    }

    method CreatePaymentLink(amount: int, newLink: LinkId) returns (r: Outcome<LinkId>)
      requires Valid() && newLink !in links
      modifies this
      ensures Valid()
      ensures if amount <= 0 then r == Rejected && links == old(links)
              else r == Success(newLink) && links == old(links)[newLink := Issued]
    {
      if amount <= 0 {
        return Rejected;
      }
      ghost var before := CancelledLinks();
      links, created := links[newLink := Issued], created + 1;
      assert CancelledLinks() == before;
      r := Success(newLink);
    }

    // Cancelling is idempotent: asking again answers the same and counts nothing.
    method CancelPaymentLink(link: LinkId) returns (r: Outcome<LinkStatus>)
      requires Valid()
      modifies this
      ensures Valid()
      ensures if link !in old(links) then r == Rejected && links == old(links) && cancelled == old(cancelled)
              else r == Success(Cancelled) && links == old(links)[link := Cancelled]
                   && cancelled == old(cancelled) + if old(links[link]) == Issued then 1 else 0
    {
      if link !in links {
        return Rejected;
      }
      if links[link] != Issued {
        assert links[link := Cancelled] == links;
        return Success(links[link]);
      }
      ghost var before := CancelledLinks();
      links, cancelled := links[link := Cancelled], cancelled + 1;
      assert CancelledLinks() == before + {link};
      r := Success(Cancelled);
    }
  }
}
