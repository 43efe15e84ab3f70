/** The entry list page: shows the list with a limit that "Load More" raises by ten. */
module ChangelogPage {
  import Text
  import ChangelogList

  const InitialLimit := 10
  const Step := 10

  /** The limit after `n` presses of "Load More". */
  function LimitAfter(n: nat): nat
  {
    if n == 0 then InitialLimit else LimitAfter(n - 1) + Step
  }

  /** After n presses the limit is 10 + 10n: a positive multiple of ten. */
  lemma {:induction false} LimitAfterClosedForm(n: nat)
    ensures LimitAfter(n) == InitialLimit + Step * n
    ensures LimitAfter(n) > 0 && LimitAfter(n) % Step == 0
  {
    if n > 0 {
      LimitAfterClosedForm(n - 1);
    }
  }

  /** More presses never lower the limit. */
  lemma LimitNeverDecreases(m: nat, n: nat)
    requires m <= n
    ensures LimitAfter(m) <= LimitAfter(n)
  {
    LimitAfterClosedForm(m);
    LimitAfterClosedForm(n);
  }

  /** The list fetch after n presses asks the backend for exactly 10 + 10n entries. */
  lemma FetchUsesPageLimit(n: nat)
    ensures Text.ParseNat(ChangelogList.ListPath(LimitAfter(n))[|ChangelogList.ListPrefix|..]) == InitialLimit + Step * n
  {
    LimitAfterClosedForm(n);
    ChangelogList.ListPathCarriesLimit(LimitAfter(n));
  }

  class ChangelogPageState {
    var limit: nat

    /** The limit is always a positive multiple of ten. */
    ghost predicate Valid()
      reads this
    {
      limit > 0 && limit % Step == 0
    }

    constructor ()
      ensures Valid() && limit == InitialLimit
    {
      limit := InitialLimit;
    }

    /** `loadMore`: raise the limit by ten. */
    method LoadMore()
      requires Valid()
      modifies this
      ensures Valid() && limit == old(limit) + Step
    {
      limit := limit + Step;
    }
  }
}
