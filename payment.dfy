/** The payment ledger: `receive` records an account that paid the exact
    amount through an accepted payment token, and a pack build consumes that
    record. The paid list never holds an account twice. */
module Payment {
  import opened Outcome
  import opened Seqs
  import opened PackState

  /** `valid_payments.iter().find(|x| x.address == sender)`. */
  function FindPayment(contracts: seq<PaymentContract>, address: Addr): (r: Option<PaymentContract>)
    ensures r.None? <==> forall i | 0 <= i < |contracts| :: contracts[i].address != address
    ensures r.Some? ==> exists i | 0 <= i < |contracts| :: contracts[i] == r.value
                          && (forall j | 0 <= j < i :: contracts[j].address != address)
    ensures r.Some? ==> r.value.address == address
    decreases |contracts|
  {
    if contracts == [] then None
    else if contracts[0].address == address then Some(contracts[0])
    else
      var r := FindPayment(contracts[1..], address);
      if r.Some? then
        ghost var i :| 0 <= i < |contracts[1..]| && contracts[1..][i] == r.value
                       && (forall j | 0 <= j < i :: contracts[1..][j].address != address);
        assert contracts[i + 1] == r.value;
        r
      else r
  }

  /** `receive`: the calling token contract must be an accepted one (a
      configuration without any accepted payments panics), the amount must
      be exactly its price, and the sender must not already be on the list;
      then the sender is appended and the amount is forwarded to the
      receiving address. */
  function ReceiveStep(s: Store, tokenContract: Addr, sender: Addr, amount: nat): Result<(Store, Response)>
  {
    var contracts :- Unwrap(s.config.validPayments);
    var found := FindPayment(contracts, tokenContract);
    if found.None? then Err(NotPaymentContract)
    else if found.value.paymentNeeded != amount then Err(WrongAmount)
    else if sender in s.paid then Err(AlreadyBuilding)
    else
      Ok((s.(paid := s.paid + [sender]),
          Response([PaymentTransfer(found.value.address, s.config.receivingAddress, amount)], [])))
  }

  /** The payment check that opens a pack build: an account absent from the
      list is refused with "Payment not received" when payment is required,
      and panics on `position.unwrap()` when it is not; a listed account is
      removed. */
  function ConsumePayment(isPaymentNeeded: bool, paid: seq<Addr>, account: Addr): Result<seq<Addr>>
  {
    var pos := IndexOf(paid, account);
    if isPaymentNeeded && pos.None? then Err(PaymentNotReceived)
    else if pos.None? then Err(Panicked(MissingValue))
    else Ok(RemoveAt(paid, pos.value))
  }

  /** `receive` fails in exactly the three refused cases (and when no payment
      token is configured); otherwise it appends the sender and emits one
      transfer of the amount to the receiving address. */
  lemma ReceiveOutcome(s: Store, tokenContract: Addr, sender: Addr, amount: nat)
    ensures var step := ReceiveStep(s, tokenContract, sender, amount);
            step.Ok? <==> (&& s.config.validPayments.Some?
                           && (exists i | 0 <= i < |s.config.validPayments.value| ::
                                 s.config.validPayments.value[i].address == tokenContract)
                           && FindPayment(s.config.validPayments.value, tokenContract).value.paymentNeeded == amount
                           && sender !in s.paid)
    ensures var step := ReceiveStep(s, tokenContract, sender, amount);
            step.Ok? ==> && step.value.0 == s.(paid := s.paid + [sender])
                         && step.value.1.messages == [PaymentTransfer(tokenContract, s.config.receivingAddress, amount)]
  {
  }

  /** A successful `receive` keeps the paid list free of duplicates. */
  lemma ReceiveKeepsNoDup(s: Store, tokenContract: Addr, sender: Addr, amount: nat)
    requires NoDup(s.paid)
    requires ReceiveStep(s, tokenContract, sender, amount).Ok?
    ensures NoDup(ReceiveStep(s, tokenContract, sender, amount).value.0.paid)
  {
    AppendKeepsNoDup(s.paid, sender);
  }

  /** Consumption succeeds exactly when the account is listed, removes that
      one entry, and leaves no copy of the account behind. */
  lemma ConsumeExactlyOnce(isPaymentNeeded: bool, paid: seq<Addr>, account: Addr)
    requires NoDup(paid)
    ensures ConsumePayment(isPaymentNeeded, paid, account).Ok? <==> account in paid
    ensures var r := ConsumePayment(isPaymentNeeded, paid, account);
            r.Ok? ==> && account !in r.value
                      && NoDup(r.value)
                      && multiset(r.value) + multiset{account} == multiset(paid)
    ensures var r := ConsumePayment(isPaymentNeeded, paid, account);
            r.Err? ==> r.error == if isPaymentNeeded then PaymentNotReceived else Panicked(MissingValue)
  {
    var pos := IndexOf(paid, account);
    if pos.Some? {
      RemoveAtKeepsNoDup(paid, pos.value);
    }
  }
}
