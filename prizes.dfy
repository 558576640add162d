/** `format_prizes`: the text sent to Telegram for the answer of
    `pet.getPrize`. The lines are kept as structured prize lines; the text is
    made from them at the end. */
module Prizes {
  import opened PyValues
  import opened Collect

  /** The currency fields, in the order the lines list them. */
  datatype Currency = Soft | Ton | Gton | EventCurrency | Experience

  const Currencies: seq<Currency> := [Soft, Ton, Gton, EventCurrency, Experience]

  function FieldName(c: Currency): string {
    match c
    case Soft => "soft"
    case Ton => "ton"
    case Gton => "gton"
    case EventCurrency => "eventCurrency"
    case Experience => "experience"
  }

  /** The position of `c` in `Currencies`. */
  function Order(c: Currency): nat {
    match c
    case Soft => 0
    case Ton => 1
    case Gton => 2
    case EventCurrency => 3
    case Experience => 4
  }

  /** One line of the prize text. Field values are kept as the JSON they
      came as; `None` when the entry lacks the field. */
  datatype PrizeLine =
    | CurrencyLine(currency: Currency, amount: Json)
    | SkinLine(name: Json, rarity: Json)
    | EggLine(region: Json, rarity: Json)
    | EssenceLine(kind: Json)

  /** Which group a line belongs to: currencies, skins, eggs, essences. */
  function Group(l: PrizeLine): nat {
    match l
    case CurrencyLine(_, _) => 0
    case SkinLine(_, _) => 1
    case EggLine(_, _) => 2
    case EssenceLine(_) => 3
  }

  /** The lines for the truthy currency fields among `cs`, in the order of `cs`. */
  function CurrencyLines(fields: map<string, Json>, cs: seq<Currency>): seq<PrizeLine>
    decreases |cs|
  {
    if cs == [] then []
    else
      var c := cs[|cs| - 1];
      var name := FieldName(c);
      CurrencyLines(fields, cs[..|cs| - 1])
      + (if name in fields && Truthy(fields[name]) then [CurrencyLine(c, fields[name])] else [])
  }

  function SkinOf(s: Json): Result<Option<PrizeLine>> {
    var name :- Get(s, "name", JNull);
    var rarity :- Get(s, "rarity", JNull);
    Ok(Some(SkinLine(name, rarity)))
  }

  function EggOf(e: Json): Result<Option<PrizeLine>> {
    var region :- Get(e, "allowedRegion", JNull);
    var rarity :- Get(e, "rarity", JNull);
    Ok(Some(EggLine(region, rarity)))
  }

  function EssenceOf(ess: Json): Result<Option<PrizeLine>> {
    var kind :- Get(ess, "type", JNull);
    Ok(Some(EssenceLine(kind)))
  }

  /** The entries visited by `for x in data.get(key, [])`. */
  function ItemsOf(data: Json, key: string): Result<seq<Json>> {
    var v :- Get(data, key, JArr([]));
    LoopItems(v)
  }

  /** The lines of one of the three item groups. */
  function Section(data: Json, key: string, f: Json -> Result<Option<PrizeLine>>): Result<seq<PrizeLine>> {
    var items :- ItemsOf(data, key);
    FilterMap(items, f)
  }

  /** All lines of the prize text, or the exception `format_prizes` raises. */
  function PrizeLines(data: Json): Result<seq<PrizeLine>> {
    if !data.JObj? then Raised  // the first `data.get(f)` raises
    else
      var skins :- Section(data, "resultSkins", SkinOf);
      var eggs :- Section(data, "resultEggs", EggOf);
      var essences :- Section(data, "resultEssence", EssenceOf);
      Ok(CurrencyLines(data.fields, Currencies) + skins + eggs + essences)
  }

  /** The f-string of one line. */
  function LineText(l: PrizeLine): string {
    match l
    case CurrencyLine(c, v) => FieldName(c) + ": " + Str(v)
    case SkinLine(name, rarity) => "Skin: " + Str(name) + " (" + Str(rarity) + ")"
    case EggLine(region, rarity) => "Egg: " + Str(region) + " (" + Str(rarity) + ")"
    case EssenceLine(kind) => "Essence: " + Str(kind)
  }

  function Texts(ls: seq<PrizeLine>): seq<string> {
    seq(|ls|, k requires 0 <= k < |ls| => LineText(ls[k]))
  }

  /** `"\n".join(ts)` */
  function Join(ts: seq<string>): string
    decreases |ts|
  {
    if ts == [] then ""
    else if |ts| == 1 then ts[0]
    else ts[0] + "\n" + Join(ts[1..])
  }

  const NoPrizes: string := "Нет призов"

  function Render(ls: seq<PrizeLine>): string {
    if ls == [] then NoPrizes else Join(Texts(ls))
  }

  /** What `format_prizes(data)` returns, or that it raises. */
  function Formatted(data: Json): Result<string> {
    var ls :- PrizeLines(data);
    Ok(Render(ls))
  }

  lemma TextsConcat(a: seq<PrizeLine>, b: seq<PrizeLine>)
    ensures Texts(a + b) == Texts(a) + Texts(b)
  {
  }

  /** One of the three `for x in data.get(key, []): lines.append(...)` loops,
      appending to `lines`. */
  method AppendSection(lines: seq<string>, items: seq<Json>, f: Json -> Result<Option<PrizeLine>>)
    returns (r: Result<seq<string>>)
    ensures r == (match FilterMap(items, f) case Ok(ls) => Ok(lines + Texts(ls)) case Raised => Raised)
  {
    var out := lines;
    ghost var done: seq<PrizeLine> := [];
    for i := 0 to |items|
      invariant FilterMap(items[..i], f) == Ok(done)
      invariant out == lines + Texts(done)
    {
      var line := f(items[i]);
      if line.Raised? {
        FilterMapRaised(items, f);
        return Raised;
      }
      FilterMapSnoc(items[..i], items[i], f);
      assert items[..i + 1] == items[..i] + [items[i]];
      TextsConcat(done, OptionToSeq(line.value));
      if line.value.Some? {
        out := out + [LineText(line.value.value)];
      }
      done := done + OptionToSeq(line.value);
    }
    assert items[..|items|] == items;
    r := Ok(out);
  }

  /** `format_prizes` with its four append loops. */
  method FormatPrizes(data: Json) returns (r: Result<string>)
    ensures r == Formatted(data)
  {
    if !data.JObj? {
      return Raised;
    }
    var lines: seq<string> := [];
    for k := 0 to |Currencies|
      invariant lines == Texts(CurrencyLines(data.fields, Currencies[..k]))
    {
      var c := Currencies[k];
      var name := FieldName(c);
      assert Currencies[..k + 1][..k] == Currencies[..k];
      if name in data.fields && Truthy(data.fields[name]) {
        TextsConcat(CurrencyLines(data.fields, Currencies[..k]), [CurrencyLine(c, data.fields[name])]);
        lines := lines + [name + ": " + Str(data.fields[name])];
      } else {
        assert CurrencyLines(data.fields, Currencies[..k + 1]) == CurrencyLines(data.fields, Currencies[..k]) + [];
      }
    }
    assert Currencies[..|Currencies|] == Currencies;
    ghost var currencies := CurrencyLines(data.fields, Currencies);
    var skins := ItemsOf(data, "resultSkins");
    if skins.Raised? {
      return Raised;
    }
    var withSkins := AppendSection(lines, skins.value, SkinOf);
    if withSkins.Raised? {
      return Raised;
    }
    var eggs := ItemsOf(data, "resultEggs");
    if eggs.Raised? {
      return Raised;
    }
    var withEggs := AppendSection(withSkins.value, eggs.value, EggOf);
    if withEggs.Raised? {
      return Raised;
    }
    var essences := ItemsOf(data, "resultEssence");
    if essences.Raised? {
      return Raised;
    }
    var all := AppendSection(withEggs.value, essences.value, EssenceOf);
    if all.Raised? {
      return Raised;
    }
    ghost var ls := PrizeLines(data).value;
    TextsConcat(currencies, Section(data, "resultSkins", SkinOf).value);
    TextsConcat(currencies + Section(data, "resultSkins", SkinOf).value, Section(data, "resultEggs", EggOf).value);
    TextsConcat(currencies + Section(data, "resultSkins", SkinOf).value + Section(data, "resultEggs", EggOf).value,
                Section(data, "resultEssence", EssenceOf).value);
    assert all.value == Texts(ls);
    if all.value == [] {
      return Ok(NoPrizes);
    }
    r := Ok(Join(all.value));
  }

  /** Every currency line is a truthy field among `cs`, with its value. */
  lemma {:induction false} CurrencyLinesSound(fields: map<string, Json>, cs: seq<Currency>)
    ensures forall l :: l in CurrencyLines(fields, cs) ==>
              && l.CurrencyLine? && l.currency in cs && FieldName(l.currency) in fields
              && l.amount == fields[FieldName(l.currency)] && Truthy(l.amount)
    decreases |cs|
  {
    if cs != [] {
      var init := cs[..|cs| - 1];
      CurrencyLinesSound(fields, init);
      assert forall c :: c in init ==> c in cs;
    }
  }

  /** Every truthy field among `cs` has its currency line. */
  lemma {:induction false} CurrencyLinesComplete(fields: map<string, Json>, cs: seq<Currency>)
    ensures forall c :: c in cs && FieldName(c) in fields && Truthy(fields[FieldName(c)])
                        ==> CurrencyLine(c, fields[FieldName(c)]) in CurrencyLines(fields, cs)
    decreases |cs|
  {
    if cs != [] {
      var init := cs[..|cs| - 1];
      CurrencyLinesComplete(fields, init);
      assert forall c :: c in cs ==> c in init || c == cs[|cs| - 1];
    }
  }

  /** The currency lines follow the order of `cs` when `cs` is in field order. */
  lemma {:induction false} CurrencyLinesSorted(fields: map<string, Json>, cs: seq<Currency>)
    requires forall i, j :: 0 <= i < j < |cs| ==> Order(cs[i]) < Order(cs[j])
    ensures var cl := CurrencyLines(fields, cs);
            forall i, j :: 0 <= i < j < |cl| ==> cl[i].CurrencyLine? && cl[j].CurrencyLine?
                                                  && Order(cl[i].currency) < Order(cl[j].currency)
    decreases |cs|
  {
    if cs != [] {
      var init := cs[..|cs| - 1];
      var last := cs[|cs| - 1];
      CurrencyLinesSorted(fields, init);
      assert var p := CurrencyLines(fields, init);
             forall i, j :: 0 <= i < j < |p| ==>
               p[i].CurrencyLine? && p[j].CurrencyLine? && Order(p[i].currency) < Order(p[j].currency);
      CurrencyLinesSound(fields, init);
      var prev := CurrencyLines(fields, init);
      var cl := CurrencyLines(fields, cs);
      forall i, j | 0 <= i < j < |cl|
        ensures cl[i].CurrencyLine? && cl[j].CurrencyLine? && Order(cl[i].currency) < Order(cl[j].currency)
      {
        assert cl[i] == prev[i] && prev[i] in prev;
        if j == |prev| {
          var k :| 0 <= k < |init| && init[k] == prev[i].currency;
          assert init[k] == cs[k];
        } else {
          assert cl[j] == prev[j];
        }
      }
    }
  }

  /** The currency lines are exactly the truthy fields, each with its value,
      in the fixed field order. */
  lemma CurrencyLinesExact(fields: map<string, Json>)
    ensures var cl := CurrencyLines(fields, Currencies);
            && (forall l :: l in cl ==> l.CurrencyLine? && FieldName(l.currency) in fields
                                        && l.amount == fields[FieldName(l.currency)] && Truthy(l.amount))
            && (forall c :: FieldName(c) in fields && Truthy(fields[FieldName(c)])
                            ==> CurrencyLine(c, fields[FieldName(c)]) in cl)
            && (forall i, j :: 0 <= i < j < |cl| ==> Order(cl[i].currency) < Order(cl[j].currency))
  {
    CurrencyLinesSound(fields, Currencies);
    CurrencyLinesComplete(fields, Currencies);
    CurrencyLinesSorted(fields, Currencies);
    forall c ensures c in Currencies {
      assert Currencies[Order(c)] == c;
    }
  }

  /** The lines of a successful call, group by group. */
  lemma PrizeLinesParts(data: Json, ls: seq<PrizeLine>)
    requires PrizeLines(data) == Ok(ls)
    ensures data.JObj? && Section(data, "resultSkins", SkinOf).Ok? && Section(data, "resultEggs", EggOf).Ok?
            && Section(data, "resultEssence", EssenceOf).Ok?
    ensures ls == CurrencyLines(data.fields, Currencies) + Section(data, "resultSkins", SkinOf).value
                  + Section(data, "resultEggs", EggOf).value + Section(data, "resultEssence", EssenceOf).value
  {
  }

  /** Four runs of lines, one per group, joined in group order: the groups
      do not interleave, and the currency run keeps its own order. */
  lemma GroupsInOrder(cl: seq<PrizeLine>, s: seq<PrizeLine>, e: seq<PrizeLine>, x: seq<PrizeLine>)
    requires forall l :: l in cl ==> Group(l) == 0
    requires forall l :: l in s ==> Group(l) == 1
    requires forall l :: l in e ==> Group(l) == 2
    requires forall l :: l in x ==> Group(l) == 3
    requires forall i, j :: 0 <= i < j < |cl| ==> cl[i].CurrencyLine? && cl[j].CurrencyLine?
                                                  && Order(cl[i].currency) < Order(cl[j].currency)
    ensures var ls := cl + s + e + x;
            forall i, j :: 0 <= i < j < |ls| ==> Group(ls[i]) <= Group(ls[j])
    ensures var ls := cl + s + e + x;
            forall i, j :: 0 <= i < j < |ls| && ls[j].CurrencyLine? ==>
              ls[i].CurrencyLine? && Order(ls[i].currency) < Order(ls[j].currency)
  {
    var ls := cl + s + e + x;
    forall k | |cl| <= k < |ls|
      ensures Group(ls[k]) >= 1
    {
      assert ls[k] in s + e + x by { assert ls[k] == (s + e + x)[k - |cl|]; }
    }
    forall i, j | 0 <= i < j < |ls| && ls[j].CurrencyLine?
      ensures ls[i].CurrencyLine? && Order(ls[i].currency) < Order(ls[j].currency)
    {
      assert Group(ls[j]) == 0;
      assert ls[j] == cl[j] && ls[i] == cl[i];
    }
  }

  /** The lines come in groups: currencies (in the fixed field order), then
      skins, then eggs, then essences. */
  lemma PrizeLinesOrdered(data: Json, ls: seq<PrizeLine>)
    requires PrizeLines(data) == Ok(ls)
    ensures forall i, j :: 0 <= i < j < |ls| ==> Group(ls[i]) <= Group(ls[j])
    ensures forall i, j :: 0 <= i < j < |ls| && ls[j].CurrencyLine? ==>
              ls[i].CurrencyLine? && Order(ls[i].currency) < Order(ls[j].currency)
  {
    PrizeLinesParts(data, ls);
    CurrencyLinesSorted(data.fields, Currencies);
    CurrencyLinesSound(data.fields, Currencies);
    SectionGroup(data, "resultSkins", SkinOf, 1);
    SectionGroup(data, "resultEggs", EggOf, 2);
    SectionGroup(data, "resultEssence", EssenceOf, 3);
    GroupsInOrder(CurrencyLines(data.fields, Currencies), Section(data, "resultSkins", SkinOf).value,
                  Section(data, "resultEggs", EggOf).value, Section(data, "resultEssence", EssenceOf).value);
  }

  /** Every line of one item group belongs to group `g`. */
  lemma SectionGroup(data: Json, key: string, f: Json -> Result<Option<PrizeLine>>, g: nat)
    requires forall j, l :: f(j) == Ok(Some(l)) ==> Group(l) == g
    requires Section(data, key, f).Ok?
    ensures forall l :: l in Section(data, key, f).value ==> Group(l) == g
  {
    FilterMapSound(ItemsOf(data, key).value, f, Section(data, key, f).value);
  }

  /** A field of an entry, `None` when the entry lacks it. */
  function FieldOf(entry: Json, key: string): Json
    requires entry.JObj?
  {
    if key in entry.fields then entry.fields[key] else JNull
  }

  /** One skin line per entry of `resultSkins`, in order. */
  lemma SkinsPerEntry(data: Json, sl: seq<PrizeLine>)
    requires Section(data, "resultSkins", SkinOf) == Ok(sl)
    ensures ItemsOf(data, "resultSkins").Ok?
    ensures var s := ItemsOf(data, "resultSkins").value;
            && |sl| == |s|
            && forall k :: 0 <= k < |s| ==> s[k].JObj? && sl[k] == SkinLine(FieldOf(s[k], "name"), FieldOf(s[k], "rarity"))
  {
    FilterMapEach(ItemsOf(data, "resultSkins").value, SkinOf, sl);
  }

  /** One egg line per entry of `resultEggs`, in order. */
  lemma EggsPerEntry(data: Json, el: seq<PrizeLine>)
    requires Section(data, "resultEggs", EggOf) == Ok(el)
    ensures ItemsOf(data, "resultEggs").Ok?
    ensures var e := ItemsOf(data, "resultEggs").value;
            && |el| == |e|
            && forall k :: 0 <= k < |e| ==> e[k].JObj? && el[k] == EggLine(FieldOf(e[k], "allowedRegion"), FieldOf(e[k], "rarity"))
  {
    FilterMapEach(ItemsOf(data, "resultEggs").value, EggOf, el);
  }

  /** One essence line per entry of `resultEssence`, in order. */
  lemma EssencesPerEntry(data: Json, xl: seq<PrizeLine>)
    requires Section(data, "resultEssence", EssenceOf) == Ok(xl)
    ensures ItemsOf(data, "resultEssence").Ok?
    ensures var x := ItemsOf(data, "resultEssence").value;
            && |xl| == |x|
            && forall k :: 0 <= k < |x| ==> x[k].JObj? && xl[k] == EssenceLine(FieldOf(x[k], "type"))
  {
    FilterMapEach(ItemsOf(data, "resultEssence").value, EssenceOf, xl);
  }

  /** After the currency lines there is one line per entry of `resultSkins`,
      of `resultEggs` and of `resultEssence`, in that order, each showing the
      entry's fields. */
  lemma PrizeLinesPerEntry(data: Json, ls: seq<PrizeLine>, s: seq<Json>, e: seq<Json>, x: seq<Json>)
    requires PrizeLines(data) == Ok(ls)
    requires ItemsOf(data, "resultSkins") == Ok(s) && ItemsOf(data, "resultEggs") == Ok(e)
             && ItemsOf(data, "resultEssence") == Ok(x)
    ensures data.JObj?
    ensures var cl := CurrencyLines(data.fields, Currencies);
            && |ls| == |cl| + |s| + |e| + |x|
            && ls[..|cl|] == cl
            && (forall k :: 0 <= k < |s| ==>
                  s[k].JObj? && ls[|cl| + k] == SkinLine(FieldOf(s[k], "name"), FieldOf(s[k], "rarity")))
            && (forall k :: 0 <= k < |e| ==>
                  e[k].JObj? && ls[|cl| + |s| + k] == EggLine(FieldOf(e[k], "allowedRegion"), FieldOf(e[k], "rarity")))
            && (forall k :: 0 <= k < |x| ==>
                  x[k].JObj? && ls[|cl| + |s| + |e| + k] == EssenceLine(FieldOf(x[k], "type")))
  {
    PrizeLinesParts(data, ls);
    var cl := CurrencyLines(data.fields, Currencies);
    var sl, el, xl := Section(data, "resultSkins", SkinOf).value, Section(data, "resultEggs", EggOf).value,
                      Section(data, "resultEssence", EssenceOf).value;
    assert |sl| == |s| && forall k :: 0 <= k < |s| ==>
             s[k].JObj? && sl[k] == SkinLine(FieldOf(s[k], "name"), FieldOf(s[k], "rarity")) by {
      SkinsPerEntry(data, sl);
    }
    assert |el| == |e| && forall k :: 0 <= k < |e| ==>
             e[k].JObj? && el[k] == EggLine(FieldOf(e[k], "allowedRegion"), FieldOf(e[k], "rarity")) by {
      EggsPerEntry(data, el);
    }
    assert |xl| == |x| && forall k :: 0 <= k < |x| ==>
             x[k].JObj? && xl[k] == EssenceLine(FieldOf(x[k], "type")) by {
      EssencesPerEntry(data, xl);
    }
    EntriesInPlace(ls, cl, sl, el, xl, s, e, x);
  }

  /** The lines `cl + sl + el + xl` put the line of each entry of `s`, `e`
      and `x` right after the lines before its group. */
  lemma EntriesInPlace(ls: seq<PrizeLine>, cl: seq<PrizeLine>, sl: seq<PrizeLine>, el: seq<PrizeLine>,
                       xl: seq<PrizeLine>, s: seq<Json>, e: seq<Json>, x: seq<Json>)
    requires ls == cl + sl + el + xl
    requires |sl| == |s| && |el| == |e| && |xl| == |x|
    requires forall k :: 0 <= k < |s| ==> s[k].JObj? && sl[k] == SkinLine(FieldOf(s[k], "name"), FieldOf(s[k], "rarity"))
    requires forall k :: 0 <= k < |e| ==>
               e[k].JObj? && el[k] == EggLine(FieldOf(e[k], "allowedRegion"), FieldOf(e[k], "rarity"))
    requires forall k :: 0 <= k < |x| ==> x[k].JObj? && xl[k] == EssenceLine(FieldOf(x[k], "type"))
    ensures |ls| == |cl| + |s| + |e| + |x|
    ensures ls[..|cl|] == cl
    ensures forall k :: 0 <= k < |s| ==>
              s[k].JObj? && ls[|cl| + k] == SkinLine(FieldOf(s[k], "name"), FieldOf(s[k], "rarity"))
    ensures forall k :: 0 <= k < |e| ==>
              e[k].JObj? && ls[|cl| + |s| + k] == EggLine(FieldOf(e[k], "allowedRegion"), FieldOf(e[k], "rarity"))
    ensures forall k :: 0 <= k < |x| ==>
              x[k].JObj? && ls[|cl| + |s| + |e| + k] == EssenceLine(FieldOf(x[k], "type"))
  {
  }

  /** An item group can be listed: its value is a list of dicts, or an empty
      string or dict, or it is missing. */
  predicate Listable(data: Json, key: string) {
    ItemsOf(data, key).Ok? && forall k :: 0 <= k < |ItemsOf(data, key).value| ==> ItemsOf(data, key).value[k].JObj?
  }

  lemma SectionOk(data: Json, key: string, f: Json -> Result<Option<PrizeLine>>)
    requires forall j :: f(j).Ok? <==> j.JObj?
    ensures Section(data, key, f).Ok? <==> Listable(data, key)
  {
    if ItemsOf(data, key).Ok? {
      FilterMapRaised(ItemsOf(data, key).value, f);
    }
  }

  /** `format_prizes` raises exactly when `data` is not a dict or one of the
      item groups cannot be listed. */
  lemma PrizesRaiseExactly(data: Json)
    ensures PrizeLines(data).Ok? <==>
              data.JObj? && Listable(data, "resultSkins") && Listable(data, "resultEggs")
              && Listable(data, "resultEssence")
  {
    SectionOk(data, "resultSkins", SkinOf);
    SectionOk(data, "resultEggs", EggOf);
    SectionOk(data, "resultEssence", EssenceOf);
  }

  /** The text is "Нет призов" exactly when there is no line: every line
      starts with a Latin letter. */
  lemma NoPrizesExactlyWhenNoLines(ls: seq<PrizeLine>)
    ensures Render(ls) == NoPrizes <==> ls == []
  {
  }
}
