/** What the mock integration clients (services/integrations/) share: an
    append-only JSON ledger whose entries are numbered from one with a
    five-digit, zero-padded suffix. */
module Ledger {
  import opened Text
  import opened Numbers
  import opened Values

  /** `f"{prefix}{n:05d}"`. */
  function SequentialId(prefix: string, n: nat): string {
    prefix + PadNat(n, 5)
  }

  /** The id is the prefix followed by at least five digits that read
      back as `n`. */
  lemma SequentialIdParts(prefix: string, n: nat)
    ensures var id := SequentialId(prefix, n);
            |id| >= |prefix| + 5 && id[..|prefix|] == prefix &&
            AllDigits(id[|prefix|..]) && ParseDigits(id[|prefix|..]) == n
  {
    var d := PadNat(n, 5);
    assert (prefix + d)[|prefix|..] == d;
  }

  /** Distinct positions get distinct ids: the number reads back from the id. */
  lemma SequentialIdInjective(prefix: string, n: nat, m: nat)
    requires n != m
    ensures SequentialId(prefix, n) != SequentialId(prefix, m)
  {
    SequentialIdParts(prefix, n);
    SequentialIdParts(prefix, m);
  }

  /** Up to 99999 entries the id is the prefix and exactly five digits. */
  lemma SequentialIdWidth(prefix: string, n: nat)
    requires n < 100000
    ensures |SequentialId(prefix, n)| == |prefix| + 5
  {
    Pow10Values();
    assert Pow10(5) == 100000;
    PadNatWidth(n, 5);
  }

  /** One posted journal entry: `{"id", "payload", "posted_at"}`. */
  datatype Posted = Posted(id: string, payload: Dict, postedAt: string)

  /** The `i`-th entry (from one) carries the `i`-th id. */
  predicate Numbered(prefix: string, entries: seq<Posted>) {
    forall i :: 0 <= i < |entries| ==> entries[i].id == SequentialId(prefix, i + 1)
  }

  /** A numbered ledger never repeats an id. */
  lemma NumberedUnique(prefix: string, entries: seq<Posted>)
    requires Numbered(prefix, entries)
    ensures forall i, j :: 0 <= i < j < |entries| ==> entries[i].id != entries[j].id
  {
    forall i, j | 0 <= i < j < |entries|
      ensures entries[i].id != entries[j].id
    {
      SequentialIdInjective(prefix, i + 1, j + 1);
    }
  }

  /** Appending the entry with the next id keeps the ledger numbered. */
  lemma NumberedAppend(prefix: string, entries: seq<Posted>, e: Posted)
    requires Numbered(prefix, entries) && e.id == SequentialId(prefix, |entries| + 1)
    ensures Numbered(prefix, entries + [e])
  {
  }
}
