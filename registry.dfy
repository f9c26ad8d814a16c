/** The in-flight registry of the RPC client and the one-step behaviour of its
    background completer, as values.

    A request is identified twice: by its 16-bit message id, which the client
    takes from a wrapping counter, and by its reply channel.  Channels are
    numbered by the order in which they are created, so channel `c` belongs to
    the `c`-th request the client ever issued (counting from 0), and the id that
    request was given is `CounterAfter(c)`.
 */
module Registry {

  /** Number of distinct 16-bit ids. */
  const MODULUS: int := 0x1_0000

  /** The Rust `u16` (message ids and the reply payload `Response`). */
  type U16 = x: int | 0 <= x < MODULUS

  /** `fetch_add(1)` on an `AtomicU16` stores the successor modulo 2^16. */
  function WrappingInc(x: U16): (r: U16)
    ensures (r - x) % MODULUS == 1
    ensures x < MODULUS - 1 ==> r == x + 1
  {
    if x == MODULUS - 1 then 0 else x + 1
  }

  /** The counter's value after `n` increments from its initial 0: the id that
      the `n`-th request receives. */
  function CounterAfter(n: nat): (r: U16)
    ensures r == n % MODULUS
  {
    if n == 0 then 0 else WrappingInc(CounterAfter(n - 1))
  }

  /** An in-flight message: its id and the channel its waiter listens on. */
  datatype Entry = Entry(id: U16, chan: nat)

  /** No two entries of the list carry the same id. */
  ghost predicate IdsDistinct(inflight: seq<Entry>) {
    forall i, j :: 0 <= i < j < |inflight| ==> inflight[i].id != inflight[j].id
  }

  /** The invariant that ties the in-flight list and the delivered values to the
      requests issued so far (`issued` of them):
      - the list is in issue order (pushes append), and every entry's channel
        was created before now;
      - every entry carries the id its request was given;
      - a channel still in the list has had nothing sent on it;
      - every value sent on a channel is the id that channel was created with. */
  ghost predicate Correlated(inflight: seq<Entry>, delivered: map<nat, U16>, issued: nat) {
    && (forall i, j :: 0 <= i < j < |inflight| ==> inflight[i].chan < inflight[j].chan)
    && (forall i :: 0 <= i < |inflight| ==>
          && inflight[i].chan < issued
          && inflight[i].id == CounterAfter(inflight[i].chan)
          && inflight[i].chan !in delivered)
    && (forall c :: c in delivered ==> c < issued && delivered[c] == CounterAfter(c))
  }

  /** One iteration of the completer loop: pop the LAST entry of the list, if
      there is one, and send its own id on its channel. */
  function Step(inflight: seq<Entry>, delivered: map<nat, U16>): (r: (seq<Entry>, map<nat, U16>))
    ensures inflight == [] ==> r.0 == [] && r.1 == delivered
    ensures inflight != [] ==>
      var last := inflight[|inflight| - 1];
      && |r.0| == |inflight| - 1
      && r.0 + [last] == inflight
      && r.1.Keys == delivered.Keys + {last.chan}
      && r.1[last.chan] == last.id
      && (forall c :: c in delivered && c != last.chan ==> r.1[c] == delivered[c])
  {
    if inflight == [] then (inflight, delivered)
    else
      var last := inflight[|inflight| - 1];
      (inflight[..|inflight| - 1], delivered[last.chan := last.id])
  }

  /** Two integers less than 2^16 apart have different residues. */
  lemma ResiduesDifferInWindow(a: int, b: int, lo: int)
    requires lo <= a < b < lo + MODULUS
    ensures a % MODULUS != b % MODULUS
  {
  }

  /** The ids in flight are distinct as long as fewer than 2^16 requests have
      been issued since the oldest entry still in flight. */
  lemma {:induction false} IdsDistinctInWindow(inflight: seq<Entry>, delivered: map<nat, U16>, issued: nat, lo: nat)
    requires Correlated(inflight, delivered, issued)
    requires forall i :: 0 <= i < |inflight| ==> lo <= inflight[i].chan
    requires issued <= lo + MODULUS
    ensures IdsDistinct(inflight)
  {
    forall i, j | 0 <= i < j < |inflight|
      ensures inflight[i].id != inflight[j].id
    {
      ResiduesDifferInWindow(inflight[i].chan, inflight[j].chan, lo);
    }
  }

  /** Before the counter has wrapped (at most 2^16 requests issued in total),
      the ids in flight are pairwise distinct. */
  lemma {:induction false} IdsDistinctBeforeWrap(inflight: seq<Entry>, delivered: map<nat, U16>, issued: nat)
    requires Correlated(inflight, delivered, issued)
    requires issued <= MODULUS
    ensures IdsDistinct(inflight)
  {
    IdsDistinctInWindow(inflight, delivered, issued, 0);
  }

  /** Registering the next request (its id from the counter, a new channel) at
      the end of the list keeps the registry correlated. */
  lemma {:induction false} PushKeepsCorrelated(inflight: seq<Entry>, delivered: map<nat, U16>, issued: nat)
    requires Correlated(inflight, delivered, issued)
    ensures Correlated(inflight + [Entry(CounterAfter(issued), issued)], delivered, issued + 1)
  {
  }

  /** A completion step keeps the registry correlated, and it never sends on a
      channel that already received a value. */
  lemma {:induction false} StepKeepsCorrelated(inflight: seq<Entry>, delivered: map<nat, U16>, issued: nat)
    requires Correlated(inflight, delivered, issued)
    ensures Correlated(Step(inflight, delivered).0, Step(inflight, delivered).1, issued)
    ensures inflight != [] ==> inflight[|inflight| - 1].chan !in delivered
  {
  }
}
