/** The details step of the transfer: the effect that looks up the
    recipient's name whenever the account number and bank change, and the
    gating of the Next button.

    The lookup is a timer: when the inputs can be resolved the effect shows
    the loading state and arms a timer that later writes a name chosen from
    a fixed list. Re-running the effect (or unmounting the form) first
    clears the pending timer. The timer's identity is a generation number:
    arming bumps it, clearing disarms it, and a firing that does not carry
    the current generation of an armed timer has no effect. */
module TransferDetails {
  import opened Wrappers
  import opened TransferSchema
  import opened DecimalText

  /** The dependencies of the effect: the watched account number and bank. */
  type Inputs = (string, Option<string>)

  /** The effect's trigger: ten characters, all digits, and a non-empty bank. */
  predicate Resolvable(accountNumber: string, bank: Option<string>)
  {
    |accountNumber| == 10 && MatchesDigits(accountNumber) && Truthy(bank)
  }

  /** The trigger on the account number is the schema's own account-number check. */
  lemma ResolvableIff(accountNumber: string, bank: Option<string>)
    ensures Resolvable(accountNumber, bank) <==> AccountNumberValid(accountNumber) && Truthy(bank)
  {
  }

  /** `!formState.isValid || !recipientName || isLoadingName`. */
  predicate NextDisabled(formValid: bool, recipientName: Option<string>, isLoadingName: bool)
  {
    !formValid || !Truthy(recipientName) || isLoadingName
  }

  /** The `recipientName` / `isLoadingName` state the effect writes, and the
      effect's own bookkeeping. `names` is the fixed, non-empty list the
      looked-up name is drawn from; `input` holds the dependencies of the
      last run; `resolvedFor` records the inputs a shown name was looked up for. */
  class RecipientLookup {
    const names: seq<string>
    var recipientName: Option<string>
    var isLoadingName: bool
    var mounted: bool
    var input: Inputs
    var generation: nat
    var armed: bool
    ghost var resolvedFor: Inputs

    ghost predicate Valid()
      reads this
    {
      |names| > 0 &&
      // a pending timer belongs to the current, resolvable inputs of a mounted form
      (armed ==> mounted && isLoadingName && Resolvable(input.0, input.1)) &&
      (recipientName.Some? ==> recipientName.value in names) &&
      // a name that is shown (not loading) was looked up for the current inputs
      (recipientName.Some? && !isLoadingName ==> resolvedFor == input && Resolvable(input.0, input.1))
    }

    /** The page's initial state: no name, not loading, form not yet mounted. */
    constructor (names: seq<string>)
      requires |names| > 0
      ensures Valid() && this.names == names
      ensures recipientName == None && !isLoadingName && !mounted && !armed
    {
      this.names := names;
      recipientName, isLoadingName := None, false;
      mounted, input, generation, armed := false, ("", None), 0, false;
      resolvedFor := ("", None);
    }

    /** What one run of the effect body did, relative to the state before it:
        with resolvable inputs it shows the loading state and arms a new
        timer, leaving any earlier name in place; otherwise it clears the
        name at once and leaves the loading flag as it was. */
    twostate predicate RanEffect(accountNumber: string, bank: Option<string>)
      reads this
    {
      mounted && input == (accountNumber, bank) &&
      if Resolvable(accountNumber, bank) then
        isLoadingName && armed && generation == old(generation) + 1 &&
        recipientName == old(recipientName)
      else
        recipientName == None && isLoadingName == old(isLoadingName) &&
        !armed && generation == old(generation)
    }

    /** The body of the effect, run after the previous run's cleanup. */
    method RunEffect(accountNumber: string, bank: Option<string>)
      requires Valid() && !armed
      modifies this
      ensures Valid() && RanEffect(accountNumber, bank)
    {
      mounted, input := true, (accountNumber, bank);
      if Resolvable(accountNumber, bank) {
        isLoadingName := true;
        generation := generation + 1;
        armed := true;
      } else {
        recipientName := None;
      }
    }

    /** The form mounts: the effect runs with the current values. */
    method Mount(accountNumber: string, bank: Option<string>)
      requires Valid() && !mounted
      modifies this
      ensures Valid() && RanEffect(accountNumber, bank)
    {
      RunEffect(accountNumber, bank);
    }

    /** The form re-renders with new values. The effect re-runs only when
        the account number or the bank differs from the last run; then the
        pending timer is cleared first, so the last input wins. */
    method Render(accountNumber: string, bank: Option<string>)
      requires Valid() && mounted
      modifies this
      ensures Valid() && mounted && input == (accountNumber, bank)
      ensures (accountNumber, bank) == old(input) ==> unchanged(this)
      ensures (accountNumber, bank) != old(input) ==> RanEffect(accountNumber, bank)
    {
      if (accountNumber, bank) != input {
        armed := false;  // cleanup: clearTimeout
        RunEffect(accountNumber, bank);
      }
    }

    /** The form unmounts: the cleanup clears the pending timer; the state it wrote stays. */
    method Unmount()
      requires Valid() && mounted
      modifies this
      ensures Valid() && !mounted && !armed
      ensures recipientName == old(recipientName) && isLoadingName == old(isLoadingName)
      ensures input == old(input) && generation == old(generation)
    {
      armed := false;
      mounted := false;
    }

    /** The timer of generation `id` fires. Only the armed timer of the
        current generation writes: a name from the list, and loading ends.
        A cleared or superseded timer changes nothing. */
    method TimerFires(id: nat)
      requires Valid()
      modifies this
      ensures Valid()
      ensures old(armed) && id == old(generation) ==>
                recipientName.Some? && recipientName.value in names && !isLoadingName && !armed &&
                resolvedFor == input
      ensures !(old(armed) && id == old(generation)) ==> unchanged(this)
      ensures input == old(input) && mounted == old(mounted) && generation == old(generation)
    {
      if armed && id == generation {
        assert names[0] in names;
        var name :| name in names;
        recipientName := Some(name);
        isLoadingName := false;
        armed := false;
        resolvedFor := input;
      }
    }

    /** Next is enabled only with a name looked up for exactly the account
        number and bank now in the form. */
    lemma NextEnabledMeansCurrentName(formValid: bool)
      requires Valid() && !NextDisabled(formValid, recipientName, isLoadingName)
      ensures resolvedFor == input && Resolvable(input.0, input.1)
    {
    }
  }

  /** Last input wins: with a bank selected, the account number is typed in
      full, then changed to another one before the first lookup completes.
      The first timer firing late writes nothing; the second one writes a name
      for the second account number. */
  method SupersededLookup(names: seq<string>, bank: string, first: string, second: string)
    returns (afterStale: Option<string>, afterCurrent: Option<string>, loading: bool, current: Inputs)
    requires |names| > 0 && bank != ""
    requires |first| == 10 && AllDigits(first) && |second| == 10 && AllDigits(second) && first != second
    ensures afterStale == None
    ensures afterCurrent.Some? && afterCurrent.value in names && !loading
    ensures current == (second, Some(bank))
  {
    MatchesDigitsIff(first);
    MatchesDigitsIff(second);
    var lookup := new RecipientLookup(names);
    lookup.Mount("", Some(bank));
    lookup.Render(first, Some(bank));
    var firstTimer := lookup.generation;
    lookup.Render(second, Some(bank));
    var secondTimer := lookup.generation;
    lookup.TimerFires(firstTimer);
    afterStale := lookup.recipientName;
    lookup.TimerFires(secondTimer);
    afterCurrent, loading, current := lookup.recipientName, lookup.isLoadingName, lookup.input;
  }

  /** A lookup abandoned half-way: a full account number starts the lookup,
      then a digit is deleted before it completes. The cleared timer never
      fires and the clear branch leaves the loading flag set, so the form
      keeps showing its loading state with no name and nothing pending. */
  method AbandonedLookup(names: seq<string>, bank: string, account: string)
    returns (name: Option<string>, loading: bool, pending: bool)
    requires |names| > 0 && bank != "" && |account| == 10 && AllDigits(account)
    ensures name == None && loading && !pending
  {
    MatchesDigitsIff(account);
    var lookup := new RecipientLookup(names);
    lookup.Mount("", Some(bank));
    lookup.Render(account, Some(bank));
    lookup.Render(account[..9], Some(bank));
    name, loading, pending := lookup.recipientName, lookup.isLoadingName, lookup.armed;
  }
}
