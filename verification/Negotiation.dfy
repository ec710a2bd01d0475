/**
  Content-coding negotiation (src/compression.rs): quality values, the members of
  Accept-Encoding, and the choice among the codings the server has.
*/
module Negotiation {
  import opened Bags
  import opened Text

  // ----------------------------------------------------------------- quality

  /** `qvalue` of section 12.4.2 of RFC 9110: a zero with up to three decimals, or a one
      with up to three zeros. */
  predicate IsQValue(s: string) {
    && |s| >= 1 && (s[0] == '0' || s[0] == '1')
    && (|s| == 1
        || (s[1] == '.' && |s| <= 5
            && forall i :: 2 <= i < |s| ==> if s[0] == '1' then s[i] == '0' else IsDigit(s[i])))
  }

  function DigitAt(s: string, i: nat): nat {
    if i < |s| && IsDigit(s[i]) then (s[i] - '0') as nat else 0
  }

  /** A quality value in thousandths. */
  function Thousandths(s: string): nat {
    if |s| >= 1 && s[0] == '1' then 1000 else 100 * DigitAt(s, 2) + 10 * DigitAt(s, 3) + DigitAt(s, 4)
  }

  lemma DecimalOfThree(f: string, s: string)
    requires |f| <= 3 && |s| == |f| + 2 && s[2..] == f
    requires forall i :: 0 <= i < |f| ==> IsDigit(f[i])
    ensures |f| == 0 ==> Decimal(f) == 0
    ensures |f| == 1 ==> Decimal(f) == DigitAt(s, 2)
    ensures |f| == 2 ==> Decimal(f) == 10 * DigitAt(s, 2) + DigitAt(s, 3)
    ensures |f| == 3 ==> Decimal(f) == 100 * DigitAt(s, 2) + 10 * DigitAt(s, 3) + DigitAt(s, 4)
  {
    forall i | 0 <= i < |f| ensures f[i] == s[i + 2] {
    }
    if |f| >= 1 {
      assert Decimal(f[..1]) == DigitAt(s, 2) by {
        assert f[..1][..0] == [];
      }
      if |f| >= 2 {
        assert f[..2][..1] == f[..1];
        assert Decimal(f[..2]) == 10 * Decimal(f[..1]) + DigitAt(s, 3);
      }
      if |f| == 3 {
        assert f[..3] == f && f[..3][..2] == f[..2];
      }
      assert f[..|f|] == f;
    }
  }

  /** `parse_quality` accepts exactly the grammar and returns exact thousandths. */
  method ParseQuality(raw: string) returns (weight: Option<nat>)
    ensures weight.Some? <==> IsQValue(raw)
    ensures weight.Some? ==> weight.value == Thousandths(raw) <= 1000
  {
    var split := SplitOnce(raw, '.');
    var whole, fractional := raw, "";
    if split.Some? {
      whole, fractional := split.value.0, split.value.1;
      assert raw == whole + ['.'] + fractional;
    }
    if |fractional| > 3 || exists i :: 0 <= i < |fractional| && !IsDigit(fractional[i]) {
      assert !IsQValue(raw) by {
        if i :| 0 <= i < |fractional| && !IsDigit(fractional[i]) {
          assert raw[|whole| + 1 + i] == fractional[i];
        }
      }
      return None;
    }
    if whole == "0" {
      var value := Decimal(fractional);
      assert split.Some? ==> raw[2..] == fractional;
      if split.Some? {
        DecimalOfThree(fractional, raw);
      }
      ghost var start := value;
      for k := |fractional| to 3
        invariant value == start * (if k == |fractional| then 1 else if k == |fractional| + 1 then 10
                                    else if k == |fractional| + 2 then 100 else 1000)
      {
        value := value * 10;
      }
      return Some(value);
    }
    if whole == "1" && forall i :: 0 <= i < |fractional| ==> fractional[i] == '0' {
      return Some(1000);
    }
    assert !IsQValue(raw) by {
      if whole == "1" {
        var i :| 0 <= i < |fractional| && fractional[i] != '0';
        assert raw[2 + i] == fractional[i];
      }
    }
    weight := None;
  }

  // ----------------------------------------------------------------- members

  datatype Member = Member(name: string, weight: nat)

  /** `token` of section 5.6.2 of RFC 9110, character by character. */
  predicate IsTokenChar(c: char) {
    IsAlpha(c) || IsDigit(c) || c == '!' || '#' <= c <= '\'' || c == '*' || c == '+' || c == '-' || c == '.'
    || c == '^' || c == '_' || c == '`' || c == '|' || c == '~'
  }

  predicate IsToken(s: string) { s != "" && forall i :: 0 <= i < |s| ==> IsTokenChar(s[i]) }

  /** A parameter that is a quality value, white space aside. */
  predicate IsWeight(parameter: string) {
    var split := SplitOnce(Trim(parameter), '=');
    split.Some? && LowerAll(Trim(split.value.0)) == "q" && IsQValue(Trim(split.value.1))
  }

  function WeightOf(parameter: string): nat {
    var split := SplitOnce(Trim(parameter), '=');
    if split.None? then 0 else Thousandths(Trim(split.value.1))
  }

  /** What a list member means: a coding and the last of its weights. */
  function MemberOf(raw: string): Option<Member> {
    var parts := SplitOn(raw, ';');
    if IsToken(Trim(parts[0])) && AllWeights(parts, |parts|) then
      Some(Member(Trim(parts[0]), LastWeight(parts, |parts|)))
    else
      None
  }

  method ParseWeight(parameter: string) returns (weight: Option<nat>)
    ensures weight.Some? <==> IsWeight(parameter)
    ensures weight.Some? ==> weight.value == WeightOf(parameter) <= 1000
  {
    var split := SplitOnce(Trim(parameter), '=');
    if split.None? || LowerAll(Trim(split.value.0)) != "q" {
      return None;
    }
    weight := ParseQuality(Trim(split.value.1));
  }

  /** The parameters before the `k`-th are all weights. */
  predicate AllWeights(parts: seq<string>, k: nat)
    requires k <= |parts|
  {
    k <= 1 || (IsWeight(parts[k - 1]) && AllWeights(parts, k - 1))
  }

  lemma {:induction false} NotAllWeights(parts: seq<string>, k: nat, n: nat)
    requires 1 <= k < n <= |parts| && !IsWeight(parts[k])
    ensures !AllWeights(parts, n)
    decreases n
  {
    if n > k + 1 {
      NotAllWeights(parts, k, n - 1);
    }
  }

  function LastWeight(parts: seq<string>, k: nat): nat {
    if k <= 1 || k > |parts| then 1000 else WeightOf(parts[k - 1])
  }

  /** The loop of `parse_member` over the parameters. */
  method ParseWeights(parts: seq<string>) returns (weight: Option<nat>)
    requires |parts| >= 1
    ensures weight.Some? <==> AllWeights(parts, |parts|)
    ensures weight.Some? ==> weight.value == LastWeight(parts, |parts|) <= 1000
  {
    var last := 1000;
    for k := 1 to |parts|
      invariant AllWeights(parts, k)
      invariant last == LastWeight(parts, k) <= 1000
    {
      var quality := ParseWeight(parts[k]);
      if quality.None? {
        NotAllWeights(parts, k, |parts|);
        return None;
      }
      last := quality.value;
    }
    weight := Some(last);
  }

  /** `parse_member`: a token followed by nothing but weights, of which the last counts. */
  method ParseMember(raw: string) returns (m: Option<Member>)
    ensures m == MemberOf(raw)
    ensures m.Some? ==> m.value.weight <= 1000
  {
    var parts := SplitOn(raw, ';');
    var name := Trim(parts[0]);
    if !IsToken(name) {
      return None;
    }
    var weight := ParseWeights(parts);
    m := if weight.None? then None else Some(Member(name, weight.value));
  }

  // ------------------------------------------------------------- accumulation

  datatype Target = Zstd | Br | Gz | Identity | Wildcard

  function TargetOf(name: string): Option<Target> {
    var n := LowerAll(name);
    if n == "zstd" then Some(Zstd)
    else if n == "br" then Some(Br)
    else if n == "gzip" || n == "x-gzip" then Some(Gz)
    else if n == "identity" then Some(Identity)
    else if name == "*" then Some(Wildcard)
    else None
  }

  function Max(a: nat, b: nat): nat { if a >= b then a else b }

  function Better(best: Option<nat>, weight: nat): Option<nat> {
    Some(Max(if best.Some? then best.value else 0, weight))
  }

  /** The highest weight that the members give to `t`. */
  function Best(ms: seq<Member>, t: Target): Option<nat> {
    if ms == [] then None
    else
      var m, rest := ms[|ms| - 1], Best(ms[..|ms| - 1], t);
      if TargetOf(m.name) == Some(t) then Better(rest, m.weight) else rest
  }

  function AsList<T>(x: Option<T>): seq<T> { if x.Some? then [x.value] else [] }

  function Parsed(raws: seq<string>): seq<Member> {
    if raws == [] then [] else Parsed(raws[..|raws| - 1]) + AsList(MemberOf(raws[|raws| - 1]))
  }

  /** `to_str` succeeds on visible ASCII, spaces and tabs. */
  predicate Readable(value: string) { forall i :: 0 <= i < |value| ==> ' ' <= value[i] <= '~' || value[i] == '\t' }

  /** The members of all Accept-Encoding lines. */
  function Members(values: seq<string>): seq<Member> {
    if values == [] then []
    else
      var last := values[|values| - 1];
      Members(values[..|values| - 1]) + if Readable(last) then Parsed(SplitOn(last, ',')) else []
  }

  datatype Accepted = Accepted(present: bool, zstandard: nat, brotli: nat, gzip: nat, identity: nat,
                               identityExplicit: bool)

  function OrElse(x: Option<nat>, y: nat): nat { if x.Some? then x.value else y }

  /** What the members accept: the best explicit weight, else the wildcard's. */
  function AcceptedBy(ms: seq<Member>): Accepted {
    var wildcard := Best(ms, Wildcard);
    var w := OrElse(wildcard, 0);
    Accepted(true, OrElse(Best(ms, Zstd), w), OrElse(Best(ms, Br), w), OrElse(Best(ms, Gz), w),
             OrElse(Best(ms, Identity), if wildcard == Some(0) then 0 else 1000), Best(ms, Identity).Some?)
  }

  const ABSENT := Accepted(false, 0, 0, 0, 1000, false)

  /** The weights of a list of members, by target. */
  datatype Bests = Bests(zstandard: Option<nat>, brotli: Option<nat>, gzip: Option<nat>,
                         identity: Option<nat>, wildcard: Option<nat>)

  function BestsOf(ms: seq<Member>): Bests {
    Bests(Best(ms, Zstd), Best(ms, Br), Best(ms, Gz), Best(ms, Identity), Best(ms, Wildcard))
  }

  function Add(b: Bests, m: Member): Bests {
    var t := TargetOf(m.name);
    if t.None? then b
    else match t.value
      case Zstd => b.(zstandard := Better(b.zstandard, m.weight))
      case Br => b.(brotli := Better(b.brotli, m.weight))
      case Gz => b.(gzip := Better(b.gzip, m.weight))
      case Identity => b.(identity := Better(b.identity, m.weight))
      case Wildcard => b.(wildcard := Better(b.wildcard, m.weight))
  }

  lemma AddOne(ms: seq<Member>, m: Member)
    ensures BestsOf(ms + [m]) == Add(BestsOf(ms), m)
  {
    assert (ms + [m])[..|ms|] == ms;
  }

  lemma AddMaybe(ms: seq<Member>, x: Option<Member>)
    ensures BestsOf(ms + AsList(x)) == if x.Some? then Add(BestsOf(ms), x.value) else BestsOf(ms)
  {
    if x.Some? {
      AddOne(ms, x.value);
    } else {
      assert ms + AsList(x) == ms;
    }
  }

  lemma ParsedOne(ms: seq<Member>, raws: seq<string>, k: nat)
    requires k < |raws|
    ensures ms + Parsed(raws[..k + 1]) == (ms + Parsed(raws[..k])) + AsList(MemberOf(raws[k]))
  {
    assert raws[..k + 1][..k] == raws[..k];
  }

  /** The inner loop of `from_headers`: the members of one line. */
  method AddLine(best: Bests, value: string, ghost seen: seq<Member>) returns (after: Bests)
    requires best == BestsOf(seen)
    ensures after == BestsOf(seen + Parsed(SplitOn(value, ',')))
  {
    var raws := SplitOn(value, ',');
    after := best;
    assert seen + Parsed(raws[..0]) == seen;
    for k := 0 to |raws|
      invariant after == BestsOf(seen + Parsed(raws[..k]))
    {
      ParsedOne(seen, raws, k);
      AddMaybe(seen + Parsed(raws[..k]), MemberOf(raws[k]));
      var m := ParseMember(raws[k]);
      if m.Some? {
        after := Add(after, m.value);
      }
    }
    assert raws[..|raws|] == raws;
  }

  /** `from_headers`; `values` are the values of the Accept-Encoding lines. */
  method FromHeaders(values: seq<string>) returns (a: Accepted)
    ensures a == if values == [] then ABSENT else AcceptedBy(Members(values))
  {
    if values == [] {
      return ABSENT;
    }
    var best := Bests(None, None, None, None, None);
    for i := 0 to |values|
      invariant best == BestsOf(Members(values[..i]))
    {
      assert values[..i + 1][..i] == values[..i];
      if Readable(values[i]) {
        best := AddLine(best, values[i], Members(values[..i]));
      } else {
        assert Members(values[..i + 1]) == Members(values[..i]);
      }
    }
    assert values[..|values|] == values;
    var w := OrElse(best.wildcard, 0);
    a := Accepted(true, OrElse(best.zstandard, w), OrElse(best.brotli, w), OrElse(best.gzip, w),
                  OrElse(best.identity, if best.wildcard == Some(0) then 0 else 1000), best.identity.Some?);
  }

  // ------------------------------------------------------------ order of members

  /** The best weight is one that some member has, and no member has a higher one. */
  lemma {:induction false} BestExact(ms: seq<Member>, t: Target)
    ensures Best(ms, t).None? <==> forall m :: m in ms ==> TargetOf(m.name) != Some(t)
    ensures Best(ms, t).Some? ==>
      && (exists m :: m in ms && TargetOf(m.name) == Some(t) && m.weight == Best(ms, t).value)
      && (forall m :: m in ms && TargetOf(m.name) == Some(t) ==> m.weight <= Best(ms, t).value)
    decreases |ms|
  {
    if ms != [] {
      var n := |ms| - 1;
      BestExact(ms[..n], t);
      assert ms == ms[..n] + [ms[n]];
      assert ms[n] in ms;
    }
  }

  lemma BestIgnoresOrder(a: seq<Member>, b: seq<Member>, t: Target)
    requires multiset(a) == multiset(b)
    ensures Best(a, t) == Best(b, t)
  {
    BestExact(a, t);
    BestExact(b, t);
    forall m ensures m in a <==> m in b {
      SameElements(a, b, m);
    }
  }

  /** The negotiation does not depend on the order of the members, nor on the lines
      they are written on. */
  lemma OrderDoesNotMatter(a: seq<string>, b: seq<string>)
    requires multiset(Members(a)) == multiset(Members(b))
    ensures AcceptedBy(Members(a)) == AcceptedBy(Members(b))
  {
    BestIgnoresOrder(Members(a), Members(b), Zstd);
    BestIgnoresOrder(Members(a), Members(b), Br);
    BestIgnoresOrder(Members(a), Members(b), Gz);
    BestIgnoresOrder(Members(a), Members(b), Identity);
    BestIgnoresOrder(Members(a), Members(b), Wildcard);
  }

  lemma {:induction false} ParsedTally(raws: seq<string>, m: Member)
    ensures multiset(Parsed(raws))[m] == Tally(raws, MemberOf, m)
    decreases |raws|
  {
    if raws != [] {
      ParsedTally(raws[..|raws| - 1], m);
    }
  }

  lemma {:induction false} ReadableLine(raws: seq<string>)
    requires forall k :: 0 <= k < |raws| ==> Readable(raws[k])
    ensures Readable(JoinWith(raws, ','))
    decreases |raws|
  {
    if |raws| > 1 {
      ReadableLine(raws[1..]);
    }
  }

  /** A header line made of these members means what they mean. */
  lemma LineMembers(raws: seq<string>)
    requires raws != [] && forall k :: 0 <= k < |raws| ==> Readable(raws[k]) && ',' !in raws[k]
    ensures Members([JoinWith(raws, ',')]) == Parsed(raws)
  {
    var line := JoinWith(raws, ',');
    ReadableLine(raws);
    SplitJoin(raws, ',');
    assert [line][..0] == [];
    assert Members([line]) == [] + Parsed(SplitOn(line, ','));
  }

  /** Permuting the members of an Accept-Encoding line changes nothing. */
  lemma PermutedLineAcceptsTheSame(a: seq<string>, b: seq<string>)
    requires multiset(a) == multiset(b) && a != []
    requires forall x :: x in a ==> Readable(x) && ',' !in x
    ensures AcceptedBy(Members([JoinWith(a, ',')])) == AcceptedBy(Members([JoinWith(b, ',')]))
  {
    assert |a| == |multiset(a)| == |b|;
    forall k | 0 <= k < |b| ensures Readable(b[k]) && ',' !in b[k] {
      assert b[k] in multiset(a);
    }
    LineMembers(a);
    LineMembers(b);
    forall m ensures multiset(Parsed(a))[m] == multiset(Parsed(b))[m] {
      ParsedTally(a, m);
      ParsedTally(b, m);
      TallyPermuted(a, b, MemberOf, m);
    }
    assert multiset(Parsed(a)) == multiset(Parsed(b));
    OrderDoesNotMatter([JoinWith(a, ',')], [JoinWith(b, ',')]);
  }

  lemma TokenIsBare(name: string)
    requires IsToken(name)
    ensures Trim(name) == name && Readable(name)
    ensures ',' !in name && ';' !in name
  {
    assert IsTokenChar(name[0]) && IsTokenChar(name[|name| - 1]);
    assert TrimStart(name) == name;
  }

  /** A bare token is a member of full weight. */
  lemma TokenMember(name: string)
    requires IsToken(name)
    ensures Members([name]) == [Member(name, 1000)]
  {
    TokenIsBare(name);
    assert SplitOn(name, ';') == [name] && SplitOn(name, ',') == [name];
    assert MemberOf(name) == Some(Member(name, 1000));
    assert [name][..0] == [];
    assert Parsed([name]) == Parsed([name][..0]) + [Member(name, 1000)];
    assert Members([name]) == Members([name][..0]) + Parsed([name]);
  }

  /** A line that names one coding accepts that coding, in whatever case it is written, and no
      other; the wildcard accepts them all, and an unknown name none. */
  lemma OneName(name: string)
    requires IsToken(name)
    ensures var n, all := LowerAll(name), name == "*";
      AcceptedBy(Members([name])) ==
        Accepted(true, if n == "zstd" || all then 1000 else 0, if n == "br" || all then 1000 else 0,
                 if n == "gzip" || n == "x-gzip" || all then 1000 else 0, 1000, n == "identity")
  {
    TokenMember(name);
    var ms := [Member(name, 1000)];
    if name == "*" { assert LowerAll(name)[0] == '*'; }
    forall t: Target ensures Best(ms, t) == if TargetOf(name) == Some(t) then Some(1000) else None {
      assert ms[..0] == [];
      assert Best(ms[..0], t) == None;
    }
  }

  // ------------------------------------------------------------------ choices

  datatype Coding = Zstandard | Brotli | Gzip

  function WeightFor(a: Accepted, c: Coding): nat {
    match c
    case Zstandard => a.zstandard
    case Brotli => a.brotli
    case Gzip => a.gzip
  }

  function Rank(c: Coding): nat {
    match c
    case Zstandard => 0
    case Brotli => 1
    case Gzip => 2
  }

  predicate Names(m: Member, c: Coding) {
    var n := LowerAll(m.name);
    match c
    case Zstandard => n == "zstd"
    case Brotli => n == "br"
    case Gzip => n == "gzip" || n == "x-gzip"
  }

  predicate NamesIdentity(m: Member) { LowerAll(m.name) == "identity" }

  /** `weight` is the highest of the members that `named` holds for. */
  ghost predicate Highest(ms: seq<Member>, named: Member -> bool, weight: nat) {
    && (exists m :: m in ms && named(m) && m.weight == weight)
    && (forall m :: m in ms && named(m) ==> m.weight <= weight)
  }

  ghost predicate Unnamed(ms: seq<Member>, named: Member -> bool) { forall m :: m in ms ==> !named(m) }

  /** A coding has the highest weight of the members that name it; if none does, that of the
      wildcard; and if there is none either, no weight. */
  lemma CodingWeight(ms: seq<Member>, c: Coding)
    ensures var weight, all := WeightFor(AcceptedBy(ms), c), (m: Member) => m.name == "*";
      if !Unnamed(ms, m => Names(m, c)) then Highest(ms, m => Names(m, c), weight)
      else if !Unnamed(ms, all) then Highest(ms, all, weight)
      else weight == 0
  {
    var t := match c case Zstandard => Zstd case Brotli => Br case Gzip => Gz;
    forall m: Member ensures TargetOf(m.name) == Some(t) <==> Names(m, c) {}
    WildcardIsNoCoding();
    BestExact(ms, t);
    BestExact(ms, Wildcard);
  }

  /** Identity is accepted unless a member that names it, or else a wildcard, has weight zero
      and none has more. */
  lemma IdentityWeight(ms: seq<Member>)
    ensures var a, all := AcceptedBy(ms), (m: Member) => m.name == "*";
      && (a.identityExplicit <==> !Unnamed(ms, NamesIdentity))
      && if a.identityExplicit then Highest(ms, NamesIdentity, a.identity)
         else a.identity == if Highest(ms, all, 0) then 0 else 1000
  {
    forall m: Member ensures TargetOf(m.name) == Some(Identity) <==> NamesIdentity(m) {}
    WildcardIsNoCoding();
    BestExact(ms, Identity);
    BestExact(ms, Wildcard);
  }

  lemma WildcardIsNoCoding()
    ensures forall name: string :: TargetOf(name) == Some(Wildcard) <==> name == "*"
  {
    assert LowerAll("*")[0] == '*';
  }

  /** `preferred`: a coding of non-zero maximal weight, the first of them in the fixed
      order, unless identity is asked for with a higher weight. */
  method Preferred(a: Accepted) returns (chosen: Option<Coding>)
    ensures chosen.Some? ==>
      && a.present && WeightFor(a, chosen.value) > 0
      && !(a.identityExplicit && a.identity > WeightFor(a, chosen.value))
      && (forall c :: WeightFor(a, c) <= WeightFor(a, chosen.value))
      && (forall c :: WeightFor(a, c) == WeightFor(a, chosen.value) ==> Rank(chosen.value) <= Rank(c))
    ensures chosen.None? ==>
      || !a.present
      || (forall c :: WeightFor(a, c) == 0)
      || (a.identityExplicit && forall c :: WeightFor(a, c) < a.identity)
  {
    if !a.present {
      return None;
    }
    var order := [Zstandard, Brotli, Gzip];
    var selected: Option<Coding> := None;
    var weight := 0;
    for i := 0 to 3
      invariant weight == 0 <==> selected.None?
      invariant selected.Some? ==> WeightFor(a, selected.value) == weight && Rank(selected.value) < i
      invariant forall c :: Rank(c) < i ==> WeightFor(a, c) <= weight
      invariant selected.Some? ==> forall c :: Rank(c) < Rank(selected.value) ==> WeightFor(a, c) < weight
    {
      assert Rank(order[i]) == i;
      assert forall c :: Rank(c) == i ==> c == order[i];
      if WeightFor(a, order[i]) > weight {
        selected := Some(order[i]);
        weight := WeightFor(a, order[i]);
      }
    }
    assert forall c :: Rank(c) < 3;
    if weight == 0 || (a.identityExplicit && a.identity > weight) {
      return None;
    }
    chosen := selected;
  }

  datatype Streaming = StreamIdentity | StreamBrotli | NotAcceptable

  /** `preferred_streaming`: never a representation the client excludes. */
  function PreferredStreaming(a: Accepted): (s: Streaming)
    ensures s == NotAcceptable <==> a.present && a.brotli == 0 && a.identity == 0
    ensures s == StreamBrotli <==> a.present && a.brotli > 0 && (a.identityExplicit ==> a.brotli >= a.identity)
    ensures s == StreamIdentity ==> !a.present || a.identity > 0
  {
    if !a.present then StreamIdentity
    else if a.brotli != 0 && !(a.identityExplicit && a.identity > a.brotli) then StreamBrotli
    else if a.identity != 0 then StreamIdentity
    else NotAcceptable
  }
}
