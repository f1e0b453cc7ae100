/** The attribute model (src/utils/attributeUtils.ts): applying a batch of
    choice effects, the natural drift that comes with age, and the derived
    view shown to the player. */
module AttributeUtils {
  import opened Types

  // ------------------------------------------------------- bonuses (pure)

  /** getEducationBonus: the intelligence bonus of each education level. */
  function EducationBonus(e: EducationLevel): (bonus: real)
    ensures 0.0 <= bonus <= 40.0
  {
    match e
    case Primary => 0.0
    case MiddleSchool => 5.0
    case HighSchool => 10.0
    case Bachelor => 20.0
    case MasterDegree => 30.0
    case Doctorate => 40.0
  }

  lemma {:induction false} EducationBonusMonotone(a: EducationLevel, b: EducationLevel)
    requires EducationIndex(a) <= EducationIndex(b)
    ensures EducationBonus(a) <= EducationBonus(b)
  {
    match a
    case Primary =>
    case MiddleSchool => assert b != Primary;
    case HighSchool => assert b != Primary && b != MiddleSchool;
    case Bachelor => assert b in {MasterDegree, Doctorate, Bachelor};
    case MasterDegree => assert b in {MasterDegree, Doctorate};
    case Doctorate => assert b == Doctorate;
  }

  /** `CAREER_LEVEL_MULTIPLIERS[level] || 1`: a missing or zero entry reads as 1. */
  function TableMultiplier(table: map<CareerLevel, real>, level: CareerLevel): (m: real)
    ensures m != 0.0
    ensures level in table && table[level] != 0.0 ==> m == table[level]
    ensures level !in table || table[level] == 0.0 ==> m == 1.0
  {
    if level in table && table[level] != 0.0 then table[level] else 1.0
  }

  /** getCareerBonus: the happiness bonus of a career, present only with a career. */
  function CareerBonus(career: Option<Career>, level: CareerLevel,
                       table: map<CareerLevel, real>): (bonus: Option<real>)
    ensures career.None? <==> bonus.None?
    ensures bonus.Some? ==> bonus.value <= 10.0
    ensures bonus.Some? && career.value.baseSalary >= 0.0 && TableMultiplier(table, level) > 0.0
            ==> bonus.value >= 0.0
  {
    match career
    case None => None
    case Some(c) =>
      var incomeBonus := c.baseSalary * TableMultiplier(table, level) * 0.1;
      Some(Min(10.0, incomeBonus / 1000.0))
  }

  // ------------------------------------------------------------- clamping

  function Clamp(x: real): (r: real)
    ensures 0.0 <= r <= 100.0
    ensures 0.0 <= x <= 100.0 ==> r == x
    ensures x < 0.0 ==> r == 0.0
    ensures x > 100.0 ==> r == 100.0
  {
    Max(0.0, Min(100.0, x))
  }

  // --------------------------------------------------- effect application

  /** True when an effect adds its value to attribute `k`. */
  predicate Targets(e: Effect, k: AttrKey) {
    (e.kind == AttributeEffect && e.attribute == Some(k)) || (e.kind == WealthEffect && k == Wealth)
  }

  /** One iteration of the forEach in applyEventEffects. */
  function Step(a: Attributes, e: Effect): Attributes {
    if e.kind == AttributeEffect && e.attribute.Some? then
      a.Set(e.attribute.value, a.Get(e.attribute.value) + e.value)
    else if e.kind == WealthEffect then
      a.(wealth := a.wealth + e.value)
    else
      a
  }

  /** The unclamped attributes after applying `es` in order. */
  function Accumulate(a: Attributes, es: seq<Effect>): Attributes
    decreases |es|
  {
    if es == [] then a else Step(Accumulate(a, es[..|es| - 1]), es[|es| - 1])
  }

  /** Total of the effects in `es` that target `k`, independent of order. */
  function Delta(es: seq<Effect>, k: AttrKey): real
    decreases |es|
  {
    if es == [] then 0.0
    else Delta(es[..|es| - 1], k) + (if Targets(es[|es| - 1], k) then es[|es| - 1].value else 0.0)
  }

  lemma StepAdds(a: Attributes, e: Effect, k: AttrKey)
    ensures Step(a, e).Get(k) == a.Get(k) + (if Targets(e, k) then e.value else 0.0)
  {
  }

  /** Before clamping, every attribute is its start value plus the sum of the
      effects that target it. */
  lemma {:induction false} AccumulateIsSum(a: Attributes, es: seq<Effect>, k: AttrKey)
    ensures Accumulate(a, es).Get(k) == a.Get(k) + Delta(es, k)
    decreases |es|
  {
    if es != [] {
      AccumulateIsSum(a, es[..|es| - 1], k);
      StepAdds(Accumulate(a, es[..|es| - 1]), es[|es| - 1], k);
    }
  }

  lemma {:induction false} DeltaAppend(s: seq<Effect>, t: seq<Effect>, k: AttrKey)
    ensures Delta(s + t, k) == Delta(s, k) + Delta(t, k)
    decreases |t|
  {
    if t == [] {
      assert s + t == s;
    } else {
      assert (s + t)[..|s + t| - 1] == s + t[..|t| - 1];
      DeltaAppend(s, t[..|t| - 1], k);
    }
  }

  /** applyEventEffects: applies every effect, then clamps the five bounded
      attributes once.  The input is a value and so cannot change. */
  method ApplyEventEffects(player: Player, effects: seq<Effect>) returns (updated: Player)
    ensures forall k :: Bounded(k) ==> 0.0 <= updated.attributes.Get(k) <= 100.0
    ensures forall k :: Bounded(k) ==>
              updated.attributes.Get(k) == Clamp(player.attributes.Get(k) + Delta(effects, k))
    ensures updated.attributes.wealth == player.attributes.wealth + Delta(effects, Wealth)
    ensures updated == player.(attributes := updated.attributes)
  {
    var attrs := player.attributes;
    var i := 0;
    while i < |effects|
      invariant 0 <= i <= |effects|
      invariant attrs == Accumulate(player.attributes, effects[..i])
    {
      var effect := effects[i];
      if effect.kind == AttributeEffect && effect.attribute.Some? {
        var currentValue := attrs.Get(effect.attribute.value);
        attrs := attrs.Set(effect.attribute.value, currentValue + effect.value);
      } else if effect.kind == WealthEffect {
        attrs := attrs.(wealth := attrs.wealth + effect.value);
      }
      assert effects[..i + 1][..i] == effects[..i];
      i := i + 1;
    }
    assert effects[..i] == effects;
    attrs := attrs.(health := Max(0.0, Min(100.0, attrs.health)));
    attrs := attrs.(intelligence := Max(0.0, Min(100.0, attrs.intelligence)));
    attrs := attrs.(charm := Max(0.0, Min(100.0, attrs.charm)));
    attrs := attrs.(happiness := Max(0.0, Min(100.0, attrs.happiness)));
    attrs := attrs.(stress := Max(0.0, Min(100.0, attrs.stress)));
    updated := player.(attributes := attrs);
    forall k ensures Accumulate(player.attributes, effects).Get(k) == player.attributes.Get(k) + Delta(effects, k) {
      AccumulateIsSum(player.attributes, effects, k);
    }
  }

  /** Applying two batches in either order does the same, since clamping
      happens only after the whole batch. */
  lemma EffectOrderIrrelevant(a: Attributes, s: seq<Effect>, t: seq<Effect>, k: AttrKey)
    ensures Accumulate(a, s + t).Get(k) == Accumulate(a, t + s).Get(k)
  {
    AccumulateIsSum(a, s + t, k);
    AccumulateIsSum(a, t + s, k);
    DeltaAppend(s, t, k);
    DeltaAppend(t, s, k);
  }

  /** Health 50 with effects +90 then -90 ends at 50: one clamp, at the end. */
  lemma ClampOnceExample(a: Attributes)
    requires a.health == 50.0
    ensures var es := [Effect(AttributeEffect, Some(Health), 90.0), Effect(AttributeEffect, Some(Health), -90.0)];
            Clamp(a.health + Delta(es, Health)) == 50.0
            && Clamp(Clamp(a.health + 90.0) - 90.0) == 10.0
  {
    var es := [Effect(AttributeEffect, Some(Health), 90.0), Effect(AttributeEffect, Some(Health), -90.0)];
    assert es[..1] == [es[0]];
    assert [es[0]][..0] == [];
    assert Delta(es, Health) == 0.0;
  }

  // ------------------------------------------------------------------ age

  /** applyAgeEffects: health falls past 40 and again past 60, stress rises
      between 18 and 60. */
  method ApplyAgeEffects(attributes: Attributes, age: int) returns (updated: Attributes)
    ensures age <= 40 ==> updated.health == attributes.health
    ensures 40 < age <= 60 ==> updated.health == Max(0.0, attributes.health - 0.5)
    ensures age > 60 ==> updated.health == Max(0.0, attributes.health - 1.5)
    ensures age > 40 ==> updated.health >= 0.0
    ensures updated.stress == if 18 < age < 60 then Min(100.0, attributes.stress + 0.5)
                              else attributes.stress
    ensures updated.(health := attributes.health, stress := attributes.stress) == attributes
  {
    updated := attributes;
    if age > 40 {
      updated := updated.(health := Max(0.0, updated.health - 0.5));
    }
    if age > 60 {
      updated := updated.(health := Max(0.0, updated.health - 1.0));
    }
    if age > 18 && age < 60 {
      updated := updated.(stress := Min(100.0, updated.stress + 0.5));
    }
  }

  // -------------------------------------------------------- derived view

  /** Adding a non-negative amount after a cap is the same as capping once. */
  lemma CapThenAdd(x: real, c: real)
    requires c >= 0.0
    ensures Min(100.0, Min(100.0, x) + c) == Min(100.0, x + c)
  {
  }

  /** calculateAttributes: the display view with education, career and
      family bonuses, each capped at 100; it is never written back. */
  method CalculateAttributes(player: Player, table: map<CareerLevel, real>) returns (base: Attributes)
    ensures base.intelligence == Min(100.0, player.attributes.intelligence + EducationBonus(player.education))
    ensures var career := CareerBonus(player.career, player.careerLevel, table).GetOr(0.0);
            var family := (if player.partner.Some? then 5.0 else 0.0) + 3.0 * (|player.children| as real);
            base.happiness == Min(100.0, player.attributes.happiness + career + family)
    ensures base.happiness <= 100.0 && base.intelligence <= 100.0
    ensures base.(intelligence := player.attributes.intelligence,
                  happiness := player.attributes.happiness) == player.attributes
  {
    base := player.attributes;
    var educationBonus := EducationBonus(player.education);
    base := base.(intelligence := Min(100.0, base.intelligence + educationBonus));

    var careerBonus := CareerBonus(player.career, player.careerLevel, table);
    base := base.(happiness := Min(100.0, base.happiness + careerBonus.GetOr(0.0)));
    ghost var h1 := player.attributes.happiness + careerBonus.GetOr(0.0);

    if player.partner.Some? {
      CapThenAdd(h1, 5.0);
      base := base.(happiness := Min(100.0, base.happiness + 5.0));
    }
    ghost var h2 := h1 + (if player.partner.Some? then 5.0 else 0.0);
    assert base.happiness == Min(100.0, h2);
    if |player.children| > 0 {
      CapThenAdd(h2, 3.0 * (|player.children| as real));
      base := base.(happiness := Min(100.0, base.happiness + (|player.children| as real) * 3.0));
    }
  }
}
