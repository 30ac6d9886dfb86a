/** Part listings: ascending, complete, and the same however they are cut into pages. */
module PartListing {
  import opened Storage
  import opened Protocol

  ghost predicate SortedParts(parts: map<int, Part>, marker: int, numbers: seq<int>) {
    && (forall i | 0 <= i < |numbers| :: marker < numbers[i] <= MAX_PARTS && numbers[i] in parts)
    && (forall i, j | 0 <= i < j < |numbers| :: numbers[i] < numbers[j])
  }

  /** A listing holds exactly the parts above its marker, in strictly ascending order. */
  lemma {:induction false} AscendingSorted(parts: map<int, Part>, marker: int)
    ensures SortedParts(parts, marker, Ascending(parts, marker))
    ensures forall n | n in parts && marker < n <= MAX_PARTS :: n in Ascending(parts, marker)
    decreases MAX_PARTS - marker
  {
    if marker < MAX_PARTS {
      AscendingSorted(parts, marker + 1);
    }
  }

  /** Listing resumes after any prefix exactly where that prefix stopped. */
  lemma {:induction false} AscendingResumes(parts: map<int, Part>, marker: int, k: nat)
    requires 0 < k <= |Ascending(parts, marker)|
    ensures Ascending(parts, Ascending(parts, marker)[k - 1]) == Ascending(parts, marker)[k..]
    decreases MAX_PARTS - marker
  {
    if marker + 1 in parts {
      if k > 1 {
        AscendingResumes(parts, marker + 1, k - 1);
      }
    } else {
      AscendingResumes(parts, marker + 1, k);
    }
  }

  ghost predicate AllIn(parts: map<int, Part>, numbers: seq<int>) {
    forall i | 0 <= i < |numbers| :: numbers[i] in parts
  }

  /** The sizes a listing reports add up to the bytes that completion assembles. */
  lemma {:induction false} TotalIsLength(env: Env, parts: map<int, Part>, numbers: seq<int>)
    requires AllIn(parts, numbers)
    ensures TotalSize(Named(env, parts, numbers)) == |Concat(parts, numbers)|
    ensures Numbers(Named(env, parts, numbers)) == numbers
  {
    if numbers != [] {
      var front := numbers[..|numbers| - 1];
      TotalIsLength(env, parts, front);
      assert Named(env, parts, numbers)[..|numbers| - 1] == Named(env, parts, front);
    }
  }

  /** A provider accepts the whole listing of an upload that nobody changed since. */
  lemma ListingCompletes(env: Env, parts: map<int, Part>)
    requires Ascending(parts, 0) != []
    ensures AllIn(parts, Ascending(parts, 0))
    ensures Completes(env, parts, Named(env, parts, Ascending(parts, 0)))
  {
    AscendingSorted(parts, 0);
  }

  lemma NamedAppend(env: Env, parts: map<int, Part>, a: seq<int>, b: seq<int>)
    requires AllIn(parts, a) && AllIn(parts, b)
    ensures AllIn(parts, a + b) && Named(env, parts, a) + Named(env, parts, b) == Named(env, parts, a + b)
  {
  }

  /** A page and the listing that resumes after its last part are the listing. */
  lemma PageResumes(parts: map<int, Part>, marker: int, pageSize: nat)
    ensures var page := Page(parts, marker, pageSize);
            var all := Ascending(parts, marker);
            if |page| < |all|
            then page != [] && page + Ascending(parts, page[|page| - 1]) == all
                 && marker < page[|page| - 1] <= MAX_PARTS && page[|page| - 1] in parts
            else page == all
  {
    AscendingSorted(parts, marker);
    var page := Page(parts, marker, pageSize);
    if |page| < |Ascending(parts, marker)| {
      AscendingResumes(parts, marker, |page|);
    }
  }

  lemma {:induction false} ConcatPrepend(parts: map<int, Part>, number: int, rest: seq<int>)
    requires number in parts && AllIn(parts, rest)
    ensures AllIn(parts, [number] + rest) && Concat(parts, [number] + rest) == parts[number].body + Concat(parts, rest)
  {
    if rest == [] {
      assert [number][..0] == [];
    } else {
      var front := rest[..|rest| - 1];
      ConcatPrepend(parts, number, front);
      assert ([number] + rest)[..|rest|] == [number] + front;
    }
  }

  lemma ListedStep(parts: map<int, Part>, marker: int)
    requires marker < MAX_PARTS
    ensures AllIn(parts, Ascending(parts, marker)) && AllIn(parts, Ascending(parts, marker + 1))
    ensures Concat(parts, Ascending(parts, marker))
            == (if marker + 1 in parts then parts[marker + 1].body else [])
               + Concat(parts, Ascending(parts, marker + 1))
  {
    AscendingSorted(parts, marker + 1);
    if marker + 1 in parts {
      ConcatPrepend(parts, marker + 1, Ascending(parts, marker + 1));
    }
  }

  /** A further part adds exactly its own bytes to what the parts assemble to. */
  lemma {:induction false} AddedPart(parts: map<int, Part>, marker: int, number: int, part: Part)
    requires marker < number <= MAX_PARTS && number !in parts
    ensures var more := parts[number := part];
            && AllIn(parts, Ascending(parts, marker)) && AllIn(more, Ascending(more, marker))
            && |Concat(more, Ascending(more, marker))| == |Concat(parts, Ascending(parts, marker))| + |part.body|
            && Ascending(more, marker) != []
    decreases MAX_PARTS - marker
  {
    hide Concat, AllIn;
    var more := parts[number := part];
    ListedStep(parts, marker);
    ListedStep(more, marker);
    if number == marker + 1 {
      SamePartsAbove(parts, more, number);
      SameConcat(parts, more, Ascending(parts, number));
    } else {
      AddedPart(parts, marker + 1, number, part);
    }
  }

  lemma {:induction false} SamePartsAbove(a: map<int, Part>, b: map<int, Part>, marker: int)
    requires forall n | marker < n <= MAX_PARTS :: n in a <==> n in b
    ensures Ascending(a, marker) == Ascending(b, marker)
    decreases MAX_PARTS - marker
  {
    if marker < MAX_PARTS {
      SamePartsAbove(a, b, marker + 1);
    }
  }

  lemma {:induction false} SameConcat(a: map<int, Part>, b: map<int, Part>, numbers: seq<int>)
    requires AllIn(a, numbers) && AllIn(b, numbers)
             && forall i | 0 <= i < |numbers| :: a[numbers[i]].body == b[numbers[i]].body
    ensures Concat(a, numbers) == Concat(b, numbers)
  {
    if numbers != [] {
      SameConcat(a, b, numbers[..|numbers| - 1]);
    }
  }
}
