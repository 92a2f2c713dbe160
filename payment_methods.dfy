/**
 * The payment methods screen: a list of methods with at most one default,
 * setting the default, deleting a method, adding one from the form, and the
 * summary counts.
 */
module PaymentMethods {
  import Seqs
  import JsNumbers

  /** `type` of a payment method. */
  datatype MethodType = Card | Bank | Mobile

  function TypeName(t: MethodType): string {
    match t
    case Card => "card"
    case Bank => "bank"
    case Mobile => "mobile"
  }

  datatype PaymentMethod = PaymentMethod(
    id: string,
    kind: MethodType,
    name: string,
    details: string,
    isDefault: bool,
    isVerified: bool)

  /** The icon for a type name; unknown names get the card icon. */
  function MethodIcon(typeName: string): (icon: string)
    ensures icon == "card-outline" <==> typeName != "bank" && typeName != "mobile"
  {
    match typeName
    case "card" => "card-outline"
    case "bank" => "business-outline"
    case "mobile" => "phone-portrait-outline"
    case _ => "card-outline"
  }

  /** The colour for a type name; unknown names get grey. */
  function MethodColor(typeName: string): (color: string)
    ensures color == "#9E9E9E" <==> typeName !in {"card", "bank", "mobile"}
  {
    match typeName
    case "card" => "#4CAF50"
    case "bank" => "#2196F3"
    case "mobile" => "#FF9800"
    case _ => "#9E9E9E"
  }

  /** Each of the three types has an icon and a colour of its own. */
  lemma TypeStylesDistinct(a: MethodType, b: MethodType)
    ensures MethodColor(TypeName(a)) != "#9E9E9E"
    ensures MethodIcon(TypeName(a)) == MethodIcon(TypeName(b)) ==> a == b
    ensures MethodColor(TypeName(a)) == MethodColor(TypeName(b)) ==> a == b
  {
  }

  function Ids(ms: seq<PaymentMethod>): (ids: seq<string>)
    ensures |ids| == |ms| && forall i :: 0 <= i < |ms| ==> ids[i] == ms[i].id
  {
    if ms == [] then [] else [ms[0].id] + Ids(ms[1..])
  }

  predicate DistinctIds(ms: seq<PaymentMethod>) {
    forall i, j :: 0 <= i < j < |ms| ==> ms[i].id != ms[j].id
  }

  predicate IsDefault(m: PaymentMethod) {
    m.isDefault
  }

  predicate IsVerified(m: PaymentMethod) {
    m.isVerified
  }

  /** The "Default" summary count. */
  function DefaultCount(ms: seq<PaymentMethod>): nat {
    |Seqs.Filter(ms, IsDefault)|
  }

  /** The "Verified" summary count. */
  function VerifiedCount(ms: seq<PaymentMethod>): nat {
    |Seqs.Filter(ms, IsVerified)|
  }

  /** Neither summary count exceeds the total. */
  lemma SummaryBounds(ms: seq<PaymentMethod>)
    ensures VerifiedCount(ms) <= |ms| && DefaultCount(ms) <= |ms|
  {
  }

  /** `setDefaultMethod(id)`: a method becomes the default exactly when its id is `id`; nothing else changes. */
  function SetDefault(ms: seq<PaymentMethod>, id: string): (r: seq<PaymentMethod>)
    ensures |r| == |ms|
    ensures forall i :: 0 <= i < |r| ==> (r[i].isDefault <==> r[i].id == id)
    ensures forall i :: 0 <= i < |r| ==> r[i].(isDefault := ms[i].isDefault) == ms[i]
  {
    if ms == [] then [] else [ms[0].(isDefault := ms[0].id == id)] + SetDefault(ms[1..], id)
  }

  /** With distinct ids, setting a default leaves exactly one default if the id is listed and none otherwise. */
  lemma {:induction false} SetDefaultLeavesOne(ms: seq<PaymentMethod>, id: string)
    requires DistinctIds(ms)
    ensures DefaultCount(SetDefault(ms, id)) == if id in Ids(ms) then 1 else 0
  {
    if ms != [] {
      var r := SetDefault(ms, id);
      assert r[0] == ms[0].(isDefault := ms[0].id == id);
      assert r[1..] == SetDefault(ms[1..], id);
      SetDefaultLeavesOne(ms[1..], id);
      assert Ids(ms) == [ms[0].id] + Ids(ms[1..]);
      if ms[0].id == id {
        assert id !in Ids(ms[1..]) by {
          forall k | 0 <= k < |ms| - 1
            ensures Ids(ms[1..])[k] != id
          {
            assert ms[k + 1].id != ms[0].id;
          }
        }
      }
    }
  }

  /** The filter condition of `deleteMethod(id)`. */
  function OtherThan(id: string): PaymentMethod -> bool {
    (m: PaymentMethod) => m.id != id
  }

  /** `deleteMethod(id)`: every method with that id is removed and the rest keep their order. */
  function Delete(ms: seq<PaymentMethod>, id: string): (r: seq<PaymentMethod>)
    ensures forall i :: 0 <= i < |r| ==> r[i].id != id && r[i] in ms
    ensures forall i :: 0 <= i < |ms| && ms[i].id != id ==> ms[i] in r
    ensures Seqs.IsSubsequence(r, ms)
    ensures id !in Ids(r)
  {
    Seqs.Filter(ms, OtherThan(id))
  }

  /** Keeping some of a list with distinct ids keeps the ids distinct and the default count no larger. */
  lemma FilterKeepsInvariant(ms: seq<PaymentMethod>, keep: PaymentMethod -> bool)
    requires DistinctIds(ms)
    ensures DistinctIds(Seqs.Filter(ms, keep))
    ensures DefaultCount(Seqs.Filter(ms, keep)) <= DefaultCount(ms)
  {
    FilterKeepsDistinct(ms, keep);
    FilterLowersDefaults(ms, keep);
  }

  lemma {:induction false} FilterKeepsDistinct(ms: seq<PaymentMethod>, keep: PaymentMethod -> bool)
    requires DistinctIds(ms)
    ensures DistinctIds(Seqs.Filter(ms, keep))
  {
    if ms != [] {
      FilterKeepsDistinct(ms[1..], keep);
      var rest := Seqs.Filter(ms[1..], keep);
      if keep(ms[0]) {
        var r := [ms[0]] + rest;
        assert Seqs.Filter(ms, keep) == r;
        forall i, j | 0 <= i < j < |r|
          ensures r[i].id != r[j].id
        {
          if i == 0 {
            assert r[j] == rest[j - 1];
            assert rest[j - 1] in ms[1..];
          } else {
            assert r[i] == rest[i - 1] && r[j] == rest[j - 1];
          }
        }
      }
    }
  }

  lemma {:induction false} FilterLowersDefaults(ms: seq<PaymentMethod>, keep: PaymentMethod -> bool)
    ensures DefaultCount(Seqs.Filter(ms, keep)) <= DefaultCount(ms)
  {
    if ms != [] {
      FilterLowersDefaults(ms[1..], keep);
      var rest := Seqs.Filter(ms[1..], keep);
      if keep(ms[0]) {
        var r := [ms[0]] + rest;
        assert Seqs.Filter(ms, keep) == r;
        assert r[0] == ms[0] && r[1..] == rest;
        assert Seqs.Filter(r, IsDefault) == (if ms[0].isDefault then [ms[0]] else []) + Seqs.Filter(rest, IsDefault);
      }
    }
  }

  /** The add form's fields. */
  datatype MethodForm = MethodForm(kind: MethodType, name: string, details: string)

  const EmptyForm := MethodForm(Card, [], [])

  /** `!name || !details` rejects the form. */
  predicate FormComplete(f: MethodForm) {
    f.name != [] && f.details != []
  }

  /** The method added for a complete form under the given id: unverified, and default only on an empty list. */
  function NewMethod(ms: seq<PaymentMethod>, f: MethodForm, id: string): (m: PaymentMethod)
    ensures m.id == id && m.kind == f.kind && m.name == f.name && m.details == f.details
    ensures !m.isVerified && (m.isDefault <==> ms == [])
  {
    PaymentMethod(id, f.kind, f.name, f.details, |ms| == 0, false)
  }

  /** The id `addNewMethod` assigns, as written: the decimal form of the length plus one. */
  function IdAsWritten(ms: seq<PaymentMethod>): string {
    JsNumbers.NumberToString(|ms| + 1)
  }

  /** The number an id denotes when it is all digits, else 0. */
  function NumericId(id: string): nat {
    if JsNumbers.AllDigits(id) then JsNumbers.DigitsValue(id) else 0
  }

  /** The largest number any listed id denotes. */
  function MaxNumericId(ms: seq<PaymentMethod>): (n: nat)
    ensures forall i :: 0 <= i < |ms| ==> NumericId(ms[i].id) <= n
  {
    if ms == [] then 0
    else
      var rest := MaxNumericId(ms[1..]);
      assert forall i :: 1 <= i < |ms| ==> ms[i] == ms[1..][i - 1];
      if NumericId(ms[0].id) > rest then NumericId(ms[0].id) else rest
  }

  /** The id a new method gets: one more than the largest numeric id in the list. */
  function FreshId(ms: seq<PaymentMethod>): (id: string)
    ensures id !in Ids(ms)
  {
    var id := JsNumbers.NumberToString(MaxNumericId(ms) + 1);
    JsNumbers.NumberToStringRoundTrip(MaxNumericId(ms) + 1);
    assert NumericId(id) == MaxNumericId(ms) + 1;
    id
  }

  /** On a list whose ids are "1" to "n" in order, the corrected id is the one the screen computes. */
  lemma {:induction false} FreshIdAgreesWhileNoDelete(ms: seq<PaymentMethod>)
    requires forall i :: 0 <= i < |ms| ==> ms[i].id == JsNumbers.NumberToString(i + 1)
    ensures FreshId(ms) == IdAsWritten(ms)
  {
    if ms != [] {
      var n := MaxNumericId(ms);
      forall i | 0 <= i < |ms|
        ensures NumericId(ms[i].id) == i + 1
      {
        JsNumbers.NumberToStringRoundTrip(i + 1);
      }
      assert n >= |ms| by {
        assert NumericId(ms[|ms| - 1].id) == |ms|;
      }
      MaxIsAttained(ms);
      var i :| 0 <= i < |ms| && NumericId(ms[i].id) == n;
      assert n == |ms|;
    }
  }

  /** The largest numeric id belongs to some listed method (or is 0). */
  lemma {:induction false} MaxIsAttained(ms: seq<PaymentMethod>)
    ensures MaxNumericId(ms) == 0 || exists i :: 0 <= i < |ms| && NumericId(ms[i].id) == MaxNumericId(ms)
  {
    if ms != [] {
      MaxIsAttained(ms[1..]);
      if MaxNumericId(ms) != NumericId(ms[0].id) && MaxNumericId(ms) != 0 {
        var i :| 0 <= i < |ms| - 1 && NumericId(ms[1..][i].id) == MaxNumericId(ms[1..]);
        assert NumericId(ms[i + 1].id) == MaxNumericId(ms);
      }
    }
  }

  /** A complete form is added at the end of the list under `id`; an incomplete one adds nothing. */
  function AddWithId(ms: seq<PaymentMethod>, f: MethodForm, id: string): (r: seq<PaymentMethod>)
    ensures !FormComplete(f) ==> r == ms
    ensures FormComplete(f) ==> |r| == |ms| + 1 && r[..|ms|] == ms && r[|ms|] == NewMethod(ms, f, id)
  {
    if FormComplete(f) then ms + [NewMethod(ms, f, id)] else ms
  }

  /** `addNewMethod` as written. */
  function AddAsWritten(ms: seq<PaymentMethod>, f: MethodForm): seq<PaymentMethod> {
    AddWithId(ms, f, IdAsWritten(ms))
  }

  /** `addNewMethod` with the corrected id. */
  function Add(ms: seq<PaymentMethod>, f: MethodForm): seq<PaymentMethod> {
    AddWithId(ms, f, FreshId(ms))
  }

  /** The screen's initial three methods. */
  const InitialMethods: seq<PaymentMethod> := [
    PaymentMethod("1", Card, "Visa Card", "**** **** **** 1234", true, true),
    PaymentMethod("2", Bank, "GTBank", "Account: 0123456789", false, true),
    PaymentMethod("3", Mobile, "Paystack", "john.doe@example.com", false, false)
  ]

  /** Deleting method "1" and then adding one as written gives two methods with id "3". */
  lemma IdCollisionAsWritten()
    ensures var ms := AddAsWritten(Delete(InitialMethods, "1"), MethodForm(Card, "Mastercard", "**** 9999"));
      |ms| == 3 && ms[1].id == "3" && ms[2].id == "3" && !DistinctIds(ms)
  {
    var d := Delete(InitialMethods, "1");
    assert d == InitialMethods[1..] by {
      assert Seqs.Filter(InitialMethods[2..], OtherThan("1")) == InitialMethods[2..];
    }
    assert JsNumbers.NumberToString(3) == "3";
  }

  /** The list with at most one default and distinct ids. */
  predicate WellFormed(ms: seq<PaymentMethod>) {
    DistinctIds(ms) && DefaultCount(ms) <= 1
  }

  /** The corrected add keeps ids distinct and at most one default. */
  lemma AddKeepsWellFormed(ms: seq<PaymentMethod>, f: MethodForm)
    requires WellFormed(ms)
    ensures WellFormed(Add(ms, f))
  {
    var r := Add(ms, f);
    if FormComplete(f) {
      var m := NewMethod(ms, f, FreshId(ms));
      assert m.id !in Ids(ms);
      forall i, j | 0 <= i < j < |r|
        ensures r[i].id != r[j].id
      {
        if j == |ms| {
          assert Ids(ms)[i] == ms[i].id;
        }
      }
      DefaultCountAppend(ms, m);
      if m.isDefault {
        assert ms == [];
      }
    }
  }

  lemma {:induction false} DefaultCountAppend(ms: seq<PaymentMethod>, m: PaymentMethod)
    ensures DefaultCount(ms + [m]) == DefaultCount(ms) + (if m.isDefault then 1 else 0)
  {
    if ms == [] {
      assert ms + [m] == [m];
    } else {
      assert (ms + [m])[0] == ms[0] && (ms + [m])[1..] == ms[1..] + [m];
      DefaultCountAppend(ms[1..], m);
    }
  }

  /** The payment methods screen's state. */
  class PaymentMethodsScreen {
    var paymentMethods: seq<PaymentMethod>
    var showAddMethod: bool
    var newMethod: MethodForm

    predicate Valid()
      reads this
    {
      WellFormed(paymentMethods)
    }

    constructor ()
      ensures paymentMethods == InitialMethods && !showAddMethod && newMethod == EmptyForm
      ensures Valid()
    {
      paymentMethods := InitialMethods;
      showAddMethod := false;
      newMethod := EmptyForm;
      assert Seqs.Filter(InitialMethods[1..], IsDefault) == [];
    }

    method SetDefaultMethod(id: string)
      requires Valid()
      modifies this
      ensures Valid()
      ensures paymentMethods == SetDefault(old(paymentMethods), id)
      ensures DefaultCount(paymentMethods) == if id in Ids(old(paymentMethods)) then 1 else 0
      ensures showAddMethod == old(showAddMethod) && newMethod == old(newMethod)
    {
      SetDefaultLeavesOne(paymentMethods, id);
      var r := SetDefault(paymentMethods, id);
      assert Ids(r) == Ids(paymentMethods);
      paymentMethods := r;
    }

    /** Delete confirmed in the alert. */
    method DeleteMethod(id: string)
      requires Valid()
      modifies this
      ensures Valid()
      ensures paymentMethods == Delete(old(paymentMethods), id)
      ensures showAddMethod == old(showAddMethod) && newMethod == old(newMethod)
    {
      FilterKeepsInvariant(paymentMethods, OtherThan(id));
      paymentMethods := Delete(paymentMethods, id);
    }

    method SetFormType(t: MethodType)
      modifies this
      ensures newMethod == old(newMethod).(kind := t)
      ensures paymentMethods == old(paymentMethods) && showAddMethod == old(showAddMethod)
    {
      newMethod := newMethod.(kind := t);
    }

    method SetFormName(name: string)
      modifies this
      ensures newMethod == old(newMethod).(name := name)
      ensures paymentMethods == old(paymentMethods) && showAddMethod == old(showAddMethod)
    {
      newMethod := newMethod.(name := name);
    }

    method SetFormDetails(details: string)
      modifies this
      ensures newMethod == old(newMethod).(details := details)
      ensures paymentMethods == old(paymentMethods) && showAddMethod == old(showAddMethod)
    {
      newMethod := newMethod.(details := details);
    }

    method ToggleAddForm()
      modifies this
      ensures showAddMethod == !old(showAddMethod)
      ensures paymentMethods == old(paymentMethods) && newMethod == old(newMethod)
    {
      showAddMethod := !showAddMethod;
    }

    /** The form's Cancel button hides it; the empty-list button shows it. */
    method SetShowAddMethod(show: bool)
      modifies this
      ensures showAddMethod == show
      ensures paymentMethods == old(paymentMethods) && newMethod == old(newMethod)
    {
      showAddMethod := show;
    }

    /**
     * The add button: an incomplete form changes nothing; a complete one appends the
     * new method, resets the form and hides it.
     */
    method AddNewMethod() returns (added: bool)
      requires Valid()
      modifies this
      ensures Valid()
      ensures added <==> FormComplete(old(newMethod))
      ensures paymentMethods == Add(old(paymentMethods), old(newMethod))
      ensures !added ==> newMethod == old(newMethod) && showAddMethod == old(showAddMethod)
      ensures added ==> newMethod == EmptyForm && !showAddMethod
    {
      if !FormComplete(newMethod) {
        return false;
      }
      AddKeepsWellFormed(paymentMethods, newMethod);
      paymentMethods := Add(paymentMethods, newMethod);
      newMethod := EmptyForm;
      showAddMethod := false;
      added := true;
    }
  }
}
