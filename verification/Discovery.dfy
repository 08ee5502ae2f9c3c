/** Choosing among what a merchant offers (internal/app/discovery_service.go): the best product match, and the
    first coupon that sticks. */
module Discovery {
  import opened Results
  import opened Text

  datatype Product = Product(id: string, available: bool, confidence: real)

  const MIN_CONFIDENCE: real := 0.5

  /** Available, and not below the confidence under which no match is better than a match. */
  predicate Eligible(p: Product) {
    p.available && p.confidence >= MIN_CONFIDENCE
  }

  /** bestMatch: the first of the eligible products with the highest confidence. */
  method BestMatch(products: seq<Product>) returns (best: Option<nat>)
    ensures best == None <==> forall i | 0 <= i < |products| :: !Eligible(products[i])
    ensures best.Some? ==>
              && best.value < |products| && Eligible(products[best.value])
              && (forall i | 0 <= i < |products| && Eligible(products[i]) ::
                    products[i].confidence <= products[best.value].confidence)
              && (forall i | 0 <= i < best.value && Eligible(products[i]) ::
                    products[i].confidence < products[best.value].confidence)
  {
    best := None;
    for k := 0 to |products|
      invariant best == None <==> forall i | 0 <= i < k :: !Eligible(products[i])
      invariant best.Some? ==>
                  && best.value < k && Eligible(products[best.value])
                  && (forall i | 0 <= i < k && Eligible(products[i]) ::
                        products[i].confidence <= products[best.value].confidence)
                  && (forall i | 0 <= i < best.value && Eligible(products[i]) ::
                        products[i].confidence < products[best.value].confidence)
    {
      if !products[k].available || products[k].confidence < MIN_CONFIDENCE {
        continue;
      }
      if best == None || products[k].confidence > products[best.value].confidence {
        best := Some(k);
      }
    }
  }

  /** The codes on offer, in the order they are looked at; a product whose offers cannot be read has none. */
  function Codes(offers: seq<Result<seq<string>, Error>>): seq<string> {
    if offers == [] then []
    else Codes(offers[..|offers| - 1]) + if offers[|offers| - 1].Ok? then offers[|offers| - 1].value else []
  }

  /** Where the first code that is not blank and that the merchant accepts stands. */
  ghost predicate FirstAccepted(codes: seq<string>, accepts: string -> bool, k: nat) {
    && k < |codes| && Trim(codes[k]) != "" && accepts(Trim(codes[k]))
    && forall j | 0 <= j < k :: Trim(codes[j]) == "" || !accepts(Trim(codes[j]))
  }

  /** applyBestCoupon: each distinct code is tried once, in order, until one is accepted. Skipping codes that were
      tried before changes nothing: the outcome is the first accepted code, if there is one. */
  method ApplyBestCoupon(offers: seq<Result<seq<string>, Error>>, accepts: string -> bool)
    returns (applied: Option<string>, attempts: seq<string>)
    ensures applied == None <==> forall j | 0 <= j < |Codes(offers)| ::
                                   Trim(Codes(offers)[j]) == "" || !accepts(Trim(Codes(offers)[j]))
    ensures applied.Some? ==>
              exists k: nat :: FirstAccepted(Codes(offers), accepts, k) && applied.value == Trim(Codes(offers)[k])
    ensures forall i, j | 0 <= i < j < |attempts| :: attempts[i] != attempts[j]
  {
    applied, attempts := None, [];
    var tried: set<string> := {};
    for p := 0 to |offers|
      invariant forall c | c in tried :: c != "" && !accepts(c)
      invariant forall j | 0 <= j < |Codes(offers[..p])| ::
                  Trim(Codes(offers[..p])[j]) == "" || Trim(Codes(offers[..p])[j]) in tried
      invariant forall i | 0 <= i < |attempts| :: attempts[i] in tried
      invariant forall i, j | 0 <= i < j < |attempts| :: attempts[i] != attempts[j]
    {
      assert offers[..p + 1][..p] == offers[..p];
      if offers[p].Err? {
        continue;
      }
      ghost var before := Codes(offers[..p]);
      var codes := offers[p].value;
      for q := 0 to |codes|
        invariant forall c | c in tried :: c != "" && !accepts(c)
        invariant forall j | 0 <= j < |before| :: Trim(before[j]) == "" || Trim(before[j]) in tried
        invariant forall j | 0 <= j < q :: Trim(codes[j]) == "" || Trim(codes[j]) in tried
        invariant forall i | 0 <= i < |attempts| :: attempts[i] in tried
        invariant forall i, j | 0 <= i < j < |attempts| :: attempts[i] != attempts[j]
      {
        var code := Trim(codes[q]);
        if code == "" || code in tried {
          continue;
        }
        attempts := attempts + [code];
        if accepts(code) {
          CodesExtend(offers, p);
          assert Codes(offers)[|before| + q] == codes[q];
          assert FirstAccepted(Codes(offers), accepts, |before| + q);
          return Some(code), attempts;
        }
        tried := tried + {code};
      }
    }
    assert offers[..|offers|] == offers;
  }

  /** The codes looked at so far are a prefix of all the codes. */
  lemma {:induction false} CodesExtend(offers: seq<Result<seq<string>, Error>>, p: nat)
    requires p < |offers| && offers[p].Ok?
    ensures Codes(offers[..p]) + offers[p].value <= Codes(offers)
  {
    if p == |offers| - 1 {
      assert offers[..p] == offers[..|offers| - 1];
    } else {
      var init := offers[..|offers| - 1];
      CodesExtend(init, p);
      assert init[..p] == offers[..p];
    }
  }
}
