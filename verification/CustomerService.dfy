/**
  The customer service behind the binding flow: phone normalisation, resolution of a phone to
  customers, and creation of new customers under phone uniqueness.
 */
module CustomerService {
  import opened Prelude

  datatype Customer = Customer(ref: string, phone: string, customerId: string)

  datatype Status = Nobody | One | Many

  /** Resolution never carries customer ids, only opaque references. */
  datatype ResolveResult = ResolveResult(
    status: Status, customerRef: Option<string>, candidates: Option<seq<string>>, capped: bool)

  /** `created` is keyed by normalised phone. */
  datatype Customers = Customers(seeds: seq<Customer>, created: map<string, Customer>, counter: nat)

  // ---- Phones ----

  predicate IsDigit(c: char) { '0' <= c <= '9' }

  ghost predicate AllDigits(s: string)
  {
    forall i :: 0 <= i < |s| ==> IsDigit(s[i])
  }

  function DigitsOf(s: string): (d: string)
    ensures AllDigits(d)
    ensures AllDigits(s) ==> d == s
  {
    if s == "" then ""
    else if IsDigit(s[0]) then [s[0]] + DigitsOf(s[1..])
    else DigitsOf(s[1..])
  }

  function StripZeros(s: string): (r: string)
    ensures r == "" || r[0] != '0'
    ensures s == "" || s[0] != '0' ==> r == s
  {
    if s != "" && s[0] == '0' then StripZeros(s[1..]) else s
  }

  function NormalizePhone(phone: string): string
  {
    var digits := DigitsOf(phone);
    StripZeros(if "84" <= digits then digits[2..] else digits)
  }

  /** The three spellings of a national number meet in one canonical form. */
  lemma PhoneSpellingsAgree(national: string)
    requires AllDigits(national) && national != "" && national[0] != '0'
    ensures NormalizePhone("0" + national) == national
    ensures NormalizePhone("84" + national) == national
    ensures NormalizePhone("+84" + national) == national
  {
  }

  lemma {:induction false} DigitsConcat(a: string, b: string)
    ensures DigitsOf(a + b) == DigitsOf(a) + DigitsOf(b)
  {
    if a == "" {
      assert a + b == b;
    } else {
      assert (a + b)[1..] == a[1..] + b;
      DigitsConcat(a[1..], b);
    }
  }

  /** Spaces, dashes, brackets and the plus sign make no difference, wherever they stand. */
  lemma SeparatorsDoNotMatter(a: string, c: char, b: string)
    requires !('0' <= c <= '9')
    ensures NormalizePhone(a + [c] + b) == NormalizePhone(a + b)
  {
    DigitsConcat(a + [c], b);
    DigitsConcat(a, [c]);
    DigitsConcat(a, b);
    assert [c][1..] == "" && DigitsOf([c]) == DigitsOf("") == "";
    assert DigitsOf(a) + "" == DigitsOf(a);
  }

  lemma {:induction false} StripZerosKeepsDigits(s: string)
    requires AllDigits(s)
    ensures AllDigits(StripZeros(s))
  {
    if s != "" && s[0] == '0' {
      StripZerosKeepsDigits(s[1..]);
    }
  }

  /** `k` zeros and then the country code. */
  predicate CodeAt(digits: string, k: nat)
  {
    k + 2 <= |digits| && (forall i :: 0 <= i < k ==> digits[i] == '0') && digits[k] == '8' && digits[k + 1] == '4'
  }

  ghost predicate CodeAfterZeros(digits: string)
  {
    exists k: nat :: CodeAt(digits, k)
  }

  lemma CodeAtTail(s: string, k: nat)
    requires s != "" && s[0] == '0'
    ensures CodeAt(s[1..], k) <==> CodeAt(s, k + 1)
  {
    if CodeAt(s[1..], k) {
      forall i | 0 <= i < k + 1 ensures s[i] == '0' {
        assert i > 0 ==> s[i] == s[1..][i - 1];
      }
    }
  }

  lemma {:induction false} StrippedStartsWithCode(s: string)
    ensures "84" <= StripZeros(s) <==> CodeAfterZeros(s)
  {
    if s != "" && s[0] == '0' {
      StrippedStartsWithCode(s[1..]);
      forall k: nat ensures CodeAt(s[1..], k) <==> CodeAt(s, k + 1) {
        CodeAtTail(s, k);
      }
      if CodeAfterZeros(s) {
        var k: nat :| CodeAt(s, k);
        assert CodeAt(s[1..], k - 1);
      }
    } else {
      assert "84" <= s <==> CodeAt(s, 0);
    }
  }

  /**
    Normalising twice is harmless exactly when the phone's digits, past one leading country code,
    are not zeros followed by the country code again: such national numbers lose two digits.
   */
  lemma NormalizeIsIdempotentExactly(phone: string)
    ensures var d := DigitsOf(phone);
            NormalizePhone(NormalizePhone(phone)) == NormalizePhone(phone)
            <==> !CodeAfterZeros(if "84" <= d then d[2..] else d)
  {
    var d := DigitsOf(phone);
    StrippedStartsWithCode(if "84" <= d then d[2..] else d);
    StripZerosKeepsDigits(if "84" <= d then d[2..] else d);
    var n := NormalizePhone(phone);
    assert AllDigits(n) && DigitsOf(n) == n;
    if "84" <= n {
      StripZerosShrinks(n[2..]);
    }
  }

  /** One such number. */
  lemma NormalizingTwiceLosesDigits()
    ensures NormalizePhone("0848123") == "848123" && NormalizePhone("848123") == "8123"
  {
    assert AllDigits("0848123") && AllDigits("848123");
    assert "0848123"[1..] == "848123" && "848123"[2..] == "8123";
  }

  lemma {:induction false} StripZerosShrinks(s: string)
    ensures |StripZeros(s)| <= |s|
  {
    if s != "" && s[0] == '0' {
      StripZerosShrinks(s[1..]);
    }
  }

  // ---- Resolution and creation ----

  function WithPhone(cs: seq<Customer>, norm: string): (r: seq<Customer>)
    ensures r != [] <==> exists c :: c in cs && c.phone == norm
    ensures forall c :: c in r ==> c in cs && c.phone == norm
  {
    if cs == [] then []
    else (if cs[0].phone == norm then [cs[0]] else []) + WithPhone(cs[1..], norm)
  }

  function CreatedWith(cs: Customers, norm: string): seq<Customer>
  {
    if norm in cs.created then [cs.created[norm]] else []
  }

  function Matches(cs: Customers, norm: string): seq<Customer>
  {
    CreatedWith(cs, norm) + WithPhone(cs.seeds, norm)
  }

  function Refs(cs: seq<Customer>): (r: seq<string>)
    ensures |r| == |cs|
  {
    seq(|cs|, i requires 0 <= i < |cs| => cs[i].ref)
  }

  function Resolve(cs: Customers, phone: string): ResolveResult
  {
    var found := Matches(cs, NormalizePhone(phone));
    if |found| == 0 then ResolveResult(Nobody, None, None, false)
    else if |found| == 1 then ResolveResult(One, Some(found[0].ref), None, false)
    else if |found| > 3 then ResolveResult(Many, None, None, true)
    else ResolveResult(Many, None, Some(Refs(found)), false)
  }

  predicate PhoneTaken(cs: Customers, norm: string)
  {
    norm in cs.created || exists c :: c in cs.seeds && c.phone == norm
  }

  function Digit(n: nat): char
    requires n < 10
  {
    "0123456789"[n]
  }

  function Decimal(n: nat): (s: string)
    ensures s != ""
  {
    if n < 10 then [Digit(n)] else Decimal(n / 10) + [Digit(n % 10)]
  }

  function PadLeft(s: string, width: nat): string
    decreases width - |s|
  {
    if |s| >= width then s else PadLeft("0" + s, width)
  }

  function NewRef(n: nat): string { "REF-NEW-" + PadLeft(Decimal(n), 6) }
  function NewId(n: nat): string { "APP-" + PadLeft(Decimal(n), 6) }

  /** Check and insert in one step; `None` is the conflict. */
  function Create(cs: Customers, phone: string): (Customers, Option<Customer>)
  {
    var norm := NormalizePhone(phone);
    if PhoneTaken(cs, norm) then (cs, None)
    else
      var n := cs.counter + 1;
      var c := Customer(NewRef(n), norm, NewId(n));
      (cs.(created := cs.created[norm := c], counter := n), Some(c))
  }

  class MockCustomerService {
    const seeds: seq<Customer>
    var created: map<string, Customer>
    var counter: nat

    function State(): Customers reads this { Customers(seeds, created, counter) }

    constructor (seeds: seq<Customer>)
      ensures State() == Customers(seeds, map[], 0)
    {
      this.seeds := seeds;
      created := map[];
      counter := 0;
    }

    method CreateCustomer(phone: string) returns (made: Option<Customer>)
      modifies this
      ensures (State(), made) == Create(old(State()), phone)
    {
      var norm := NormalizePhone(phone);
      var exists_ := norm in created;
      for i := 0 to |seeds|
        invariant exists_ <==> norm in created || exists j :: 0 <= j < i && seeds[j].phone == norm
      {
        if seeds[i].phone == norm {
          exists_ := true;
        }
      }
      assert exists_ <==> PhoneTaken(State(), norm);
      if exists_ {
        return None;
      }
      counter := counter + 1;
      var c := Customer(NewRef(counter), norm, NewId(counter));
      created := created[norm := c];
      return Some(c);
    }
  }

  /** Resolution answers "nobody" exactly when creation would succeed. */
  lemma NobodyIffCreatable(cs: Customers, phone: string)
    ensures Resolve(cs, phone).status == Nobody <==> !PhoneTaken(cs, NormalizePhone(phone))
    ensures Resolve(cs, phone).status == Nobody <==> Create(cs, phone).1.Some?
  {
  }

  // ---- The references the binding flow may accept ----

  function AllowedRefs(r: ResolveResult): seq<string>
  {
    match r.status
    case One => if r.customerRef.Some? && r.customerRef.value != "" then [r.customerRef.value] else []
    case Many => if r.candidates.Some? then r.candidates.value else []
    case Nobody => []
  }

  /** The positions of the seed customers with this phone, in order. */
  ghost predicate Positions(cs: seq<Customer>, norm: string, idx: seq<nat>)
  {
    && (forall j :: 0 <= j < |idx| ==> idx[j] < |cs| && cs[idx[j]].phone == norm)
    && (forall j, k :: 0 <= j < k < |idx| ==> idx[j] < idx[k])
    && (forall i :: 0 <= i < |cs| && cs[i].phone == norm ==> i in idx)
  }

  lemma WithPhoneUnfolds(cs: seq<Customer>, norm: string)
    ensures WithPhone([], norm) == []
    ensures cs != [] ==> WithPhone(cs, norm) == (if cs[0].phone == norm then [cs[0]] else []) + WithPhone(cs[1..], norm)
  {
  }

  lemma {:induction false} WithPhoneAppend(cs: seq<Customer>, x: Customer, norm: string)
    ensures WithPhone(cs + [x], norm) == WithPhone(cs, norm) + if x.phone == norm then [x] else []
  {
    hide WithPhone;
    WithPhoneUnfolds(cs, norm);
    WithPhoneUnfolds(cs + [x], norm);
    if cs == [] {
      assert cs + [x] == [x] && [x][1..] == [];
    } else {
      assert (cs + [x])[1..] == cs[1..] + [x];
      WithPhoneAppend(cs[1..], x, norm);
    }
  }

  /** `found` are the customers at these positions. */
  ghost predicate Picks(cs: seq<Customer>, idx: seq<nat>, found: seq<Customer>)
  {
    |found| == |idx| && forall j :: 0 <= j < |idx| ==> idx[j] < |cs| && found[j] == cs[idx[j]]
  }

  lemma {:induction false} SeedPositions(cs: seq<Customer>, norm: string) returns (idx: seq<nat>)
    ensures Positions(cs, norm, idx) && Picks(cs, idx, WithPhone(cs, norm))
  {
    hide Positions, Picks;
    if cs == [] {
      idx := [];
      NoPositions(norm);
    } else {
      var n := |cs| - 1;
      var init := SeedPositions(cs[..n], norm);
      idx := init + if cs[n].phone == norm then [n] else [];
      WithPhoneAppend(cs[..n], cs[n], norm);
      assert cs[..n] + [cs[n]] == cs;
      OneMorePosition(cs, norm, init, idx);
      OneMorePick(cs, init, idx, WithPhone(cs[..n], norm), WithPhone(cs, norm), norm);
    }
  }

  lemma NoPositions(norm: string)
    ensures Positions([], norm, []) && Picks([], [], WithPhone([], norm))
  {
  }

  lemma OneMorePick(cs: seq<Customer>, init: seq<nat>, idx: seq<nat>, found: seq<Customer>, all: seq<Customer>,
                    norm: string)
    requires cs != [] && Picks(cs[..|cs| - 1], init, found)
    requires idx == init + if cs[|cs| - 1].phone == norm then [|cs| - 1] else []
    requires all == found + if cs[|cs| - 1].phone == norm then [cs[|cs| - 1]] else []
    ensures Picks(cs, idx, all)
  {
  }

  lemma OneMorePosition(cs: seq<Customer>, norm: string, init: seq<nat>, idx: seq<nat>)
    requires cs != [] && Positions(cs[..|cs| - 1], norm, init)
    requires idx == init + if cs[|cs| - 1].phone == norm then [|cs| - 1] else []
    ensures Positions(cs, norm, idx)
  {
    hide WithPhone;
    forall i | 0 <= i < |cs| && cs[i].phone == norm ensures i in idx {
      if i < |cs| - 1 {
        assert cs[..|cs| - 1][i] == cs[i] && i in init;
      } else {
        assert idx[|init|] == i;
      }
    }
  }

  /** The references at these positions. */
  function SeedRefs(cs: seq<Customer>, idx: seq<nat>): (refs: seq<string>)
    requires forall j :: 0 <= j < |idx| ==> idx[j] < |cs|
    ensures |refs| == |idx|
  {
    seq(|idx|, j requires 0 <= j < |idx| => cs[idx[j]].ref)
  }

  lemma RefsOfHolders(cs: Customers, norm: string) returns (idx: seq<nat>)
    ensures Positions(cs.seeds, norm, idx)
    ensures Refs(Matches(cs, norm)) ==
            (if norm in cs.created then [cs.created[norm].ref] else []) + SeedRefs(cs.seeds, idx)
  {
    hide WithPhone;
    idx := SeedPositions(cs.seeds, norm);
    var found, k := WithPhone(cs.seeds, norm), |CreatedWith(cs, norm)|;
    var refs := (if norm in cs.created then [cs.created[norm].ref] else []) + SeedRefs(cs.seeds, idx);
    assert |Refs(Matches(cs, norm))| == |refs|;
    forall i | 0 <= i < |refs| ensures Refs(Matches(cs, norm))[i] == refs[i] {
      if i >= k {
        assert Matches(cs, norm)[i] == found[i - k];
      }
    }
  }

  /**
    The whole answer, from the records: nobody, the one holder's reference, two or three references with
    the created customer before the seeds in their order, or, from four on, the cap and no reference.
   */
  lemma ResolveListsTheHolders(cs: Customers, phone: string) returns (idx: seq<nat>)
    ensures var norm := NormalizePhone(phone);
            Positions(cs.seeds, norm, idx) &&
            var refs := (if norm in cs.created then [cs.created[norm].ref] else []) + SeedRefs(cs.seeds, idx);
            Resolve(cs, phone) ==
            if |refs| == 0 then ResolveResult(Nobody, None, None, false)
            else if |refs| == 1 then ResolveResult(One, Some(refs[0]), None, false)
            else if |refs| <= 3 then ResolveResult(Many, None, Some(refs), false)
            else ResolveResult(Many, None, None, true)
  {
    hide Matches, NormalizePhone, SeedRefs;
    var norm := NormalizePhone(phone);
    idx := RefsOfHolders(cs, norm);
    assert |Refs(Matches(cs, norm))| == |Matches(cs, norm)|;
  }

  /** A reference may be bound if and only if one of at most three customers with the phone has it. */
  lemma AllowedExactly(cs: Customers, phone: string, ref: string) returns (idx: seq<nat>)
    ensures var norm := NormalizePhone(phone);
            && Positions(cs.seeds, norm, idx)
            && var n := |idx| + if norm in cs.created then 1 else 0;
            (ref in AllowedRefs(Resolve(cs, phone)) <==>
             && n <= 3 && (n == 1 ==> ref != "")
             && ((norm in cs.created && cs.created[norm].ref == ref)
                 || exists j :: 0 <= j < |idx| && cs.seeds[idx[j]].ref == ref))
  {
    hide Resolve, NormalizePhone;
    var norm := NormalizePhone(phone);
    idx := ResolveListsTheHolders(cs, phone);
    SeedRefsHold(cs.seeds, idx, ref);
    var head := if norm in cs.created then [cs.created[norm].ref] else [];
    assert ref in head + SeedRefs(cs.seeds, idx) <==> ref in head || ref in SeedRefs(cs.seeds, idx);
  }

  lemma SeedRefsHold(cs: seq<Customer>, idx: seq<nat>, ref: string)
    requires forall j :: 0 <= j < |idx| ==> idx[j] < |cs|
    ensures ref in SeedRefs(cs, idx) <==> exists j :: 0 <= j < |idx| && cs[idx[j]].ref == ref
  {
    if exists j :: 0 <= j < |idx| && cs[idx[j]].ref == ref {
      var j :| 0 <= j < |idx| && cs[idx[j]].ref == ref;
      assert SeedRefs(cs, idx)[j] == ref;
    }
  }

  /** Only customers holding the phone are offered, and only when there are one to three of them. */
  lemma AllowedRefsComeFromMatches(cs: Customers, phone: string, ref: string)
    requires ref in AllowedRefs(Resolve(cs, phone))
    ensures var found := Matches(cs, NormalizePhone(phone));
            && 1 <= |found| <= 3
            && exists c :: c in found && c.ref == ref
  {
    var found := Matches(cs, NormalizePhone(phone));
    var r := Resolve(cs, phone);
    if r.status == One {
      assert found[0] in found;
    } else {
      var i :| 0 <= i < |found| && Refs(found)[i] == ref;
      assert found[i] in found;
    }
  }

  // ---- Fresh references ----

  function DigitValue(c: char): nat
  {
    if IsDigit(c) then c as nat - '0' as nat else 0
  }

  function ValueOf(s: string): nat
  {
    if s == "" then 0 else ValueOf(s[..|s| - 1]) * 10 + DigitValue(s[|s| - 1])
  }

  lemma {:induction false} DecimalValue(n: nat)
    ensures ValueOf(Decimal(n)) == n
  {
    if n >= 10 {
      DecimalValue(n / 10);
      var s := Decimal(n);
      assert s[..|s| - 1] == Decimal(n / 10);
    }
  }

  lemma {:induction false} LeadingZeroValue(s: string)
    ensures ValueOf("0" + s) == ValueOf(s)
  {
    var z := "0" + s;
    if s == "" {
      assert z == "0" && z[..0] == "";
    } else {
      assert z[..|z| - 1] == "0" + s[..|s| - 1];
      LeadingZeroValue(s[..|s| - 1]);
    }
  }

  lemma {:induction false} PaddedValue(s: string, width: nat)
    ensures ValueOf(PadLeft(s, width)) == ValueOf(s)
    decreases width - |s|
  {
    if |s| < width {
      PaddedValue("0" + s, width);
      LeadingZeroValue(s);
    }
  }

  lemma OneIsPadded()
    ensures PadLeft("1", 6) == "000001"
  {
    assert "0" + "1" == "01" && "0" + "01" == "001" && "0" + "001" == "0001";
    assert "0" + "0001" == "00001" && "0" + "00001" == "000001";
    assert PadLeft("0001", 6) == PadLeft("00001", 6) == PadLeft("000001", 6);
    assert PadLeft("1", 6) == PadLeft("01", 6) == PadLeft("001", 6);
  }

  /** Numbers start at one and are padded to six digits. */
  lemma FirstCustomer(seeds: seq<Customer>, phone: string)
    requires !PhoneTaken(Customers(seeds, map[], 0), NormalizePhone(phone))
    ensures Create(Customers(seeds, map[], 0), phone).1 ==
            Some(Customer("REF-NEW-000001", NormalizePhone(phone), "APP-000001"))
  {
    hide NormalizePhone, PadLeft;
    assert Decimal(1) == [Digit(1)] == "1";
    OneIsPadded();
    assert "REF-NEW-" + "000001" == "REF-NEW-000001" && "APP-" + "000001" == "APP-000001";
  }

  /** The counter gives every created customer its own reference. */
  lemma NewRefsAreDistinct(m: nat, n: nat)
    requires NewRef(m) == NewRef(n)
    ensures m == n
  {
    var a, b := PadLeft(Decimal(m), 6), PadLeft(Decimal(n), 6);
    assert NewRef(m)[8..] == a && NewRef(n)[8..] == b;
    PaddedValue(Decimal(m), 6);
    PaddedValue(Decimal(n), 6);
    DecimalValue(m);
    DecimalValue(n);
  }
}
