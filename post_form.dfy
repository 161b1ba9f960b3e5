/**
 * The create/edit listing form: a five-step wizard whose form data starts as the
 * defaults overridden by the listing being edited, with set-like toggles for the
 * facilities and restrictions, a free-text custom restriction and removable photos.
 */
module PostForm {
  import opened Wrappers
  import opened Text
  import opened Lists
  import opened Navigation

  /** The form's data, one field per input. */
  datatype PostData = PostData(
    tenantType: string,
    rent: string,
    availableFrom: string,
    area: string,
    address: string,
    floor: string,
    facilities: seq<string>,
    restrictions: seq<string>,
    description: string,
    images: seq<string>,
    contact: string)

  /** `Partial<PostData>`: any field may be absent. */
  datatype PartialPostData = PartialPostData(
    tenantType: Option<string>,
    rent: Option<string>,
    availableFrom: Option<string>,
    area: Option<string>,
    address: Option<string>,
    floor: Option<string>,
    facilities: Option<seq<string>>,
    restrictions: Option<seq<string>>,
    description: Option<string>,
    images: Option<seq<string>>,
    contact: Option<string>)

  /** No `initialData` at all. */
  const NoInitialData := PartialPostData(None, None, None, None, None, None, None, None, None, None, None)

  /** Every field of `d` given. */
  function Complete(d: PostData): PartialPostData {
    PartialPostData(Some(d.tenantType), Some(d.rent), Some(d.availableFrom), Some(d.area), Some(d.address),
                    Some(d.floor), Some(d.facilities), Some(d.restrictions), Some(d.description),
                    Some(d.images), Some(d.contact))
  }

  /** A bachelor-male listing with every text empty and every list empty. */
  const Defaults := PostData("Bachelor Male", "", "", "", "", "", [], [], "", [], "")

  function Or<T>(o: Option<T>, d: T): T {
    if o.Some? then o.value else d
  }

  /** `{ ...base, ...p }`: the fields present in `p` replace those of `base`. */
  function Merge(base: PostData, p: PartialPostData): PostData {
    PostData(Or(p.tenantType, base.tenantType), Or(p.rent, base.rent), Or(p.availableFrom, base.availableFrom),
             Or(p.area, base.area), Or(p.address, base.address), Or(p.floor, base.floor),
             Or(p.facilities, base.facilities), Or(p.restrictions, base.restrictions),
             Or(p.description, base.description), Or(p.images, base.images), Or(p.contact, base.contact))
  }

  /** Without initial data the form holds the defaults; with a complete record it holds that record. */
  lemma MergeExtremes(base: PostData, d: PostData)
    ensures Merge(base, NoInitialData) == base
    ensures Merge(base, Complete(d)) == d
  {
  }

  /** Overriding twice with the same data is overriding once, and the result no longer depends on the base. */
  lemma MergeIdempotent(base: PostData, other: PostData, p: PartialPostData)
    ensures Merge(Merge(base, p), p) == Merge(base, p)
    ensures p == Complete(Merge(base, p)) ==> Merge(base, p) == Merge(other, p)
  {
  }

  /** The initial form keeps every given field of the edited listing and a default for every other one. */
  lemma InitialFormFields(p: PartialPostData)
    ensures Merge(Defaults, p).tenantType == (if p.tenantType.Some? then p.tenantType.value else "Bachelor Male")
    ensures Merge(Defaults, p).rent == (if p.rent.Some? then p.rent.value else "")
    ensures Merge(Defaults, p).availableFrom == (if p.availableFrom.Some? then p.availableFrom.value else "")
    ensures Merge(Defaults, p).area == (if p.area.Some? then p.area.value else "")
    ensures Merge(Defaults, p).address == (if p.address.Some? then p.address.value else "")
    ensures Merge(Defaults, p).floor == (if p.floor.Some? then p.floor.value else "")
    ensures Merge(Defaults, p).facilities == (if p.facilities.Some? then p.facilities.value else [])
    ensures Merge(Defaults, p).restrictions == (if p.restrictions.Some? then p.restrictions.value else [])
    ensures Merge(Defaults, p).description == (if p.description.Some? then p.description.value else "")
    ensures Merge(Defaults, p).images == (if p.images.Some? then p.images.value else [])
    ensures Merge(Defaults, p).contact == (if p.contact.Some? then p.contact.value else "")
  {
  }

  /** The five steps: basic info, location, details, restrictions and photos. */
  const StepCount := 5
  const LastStep := StepCount - 1

  /** `Math.min(step + 1, steps.length - 1)`. */
  function NextStepOf(step: int): (r: int)
    ensures r <= LastStep && r <= step + 1
    ensures r == step + 1 || r == LastStep
  {
    if step + 1 < LastStep then step + 1 else LastStep
  }

  /** `Math.max(step - 1, 0)`. */
  function PrevStepOf(step: int): (r: int)
    ensures r >= 0 && r >= step - 1
    ensures r == step - 1 || r == 0
  {
    if step - 1 > 0 then step - 1 else 0
  }

  predicate InRange(step: int) {
    0 <= step <= LastStep
  }

  /** Both moves keep the step among the five, and each undoes the other away from the ends. */
  lemma StepMoves(step: int)
    requires InRange(step)
    ensures InRange(NextStepOf(step)) && InRange(PrevStepOf(step))
    ensures step < LastStep ==> NextStepOf(step) == step + 1 && PrevStepOf(NextStepOf(step)) == step
    ensures step > 0 ==> PrevStepOf(step) == step - 1 && NextStepOf(PrevStepOf(step)) == step
    ensures NextStepOf(LastStep) == LastStep && PrevStepOf(0) == 0
  {
  }

  /** `LastStep - step` presses of Next always reach the photos step. */
  lemma {:induction false} NextReachesLast(step: int, n: nat)
    requires InRange(step) && n >= LastStep - step
    ensures Iterate(step, n) == LastStep
    decreases n
  {
    if n > 0 {
      StepMoves(step);
      if step == LastStep {
        NextReachesLast(step, n - 1);
      } else {
        NextReachesLast(step + 1, n - 1);
      }
    }
  }

  /** `n` presses of Next from `step`. */
  function Iterate(step: int, n: nat): int
    decreases n
  {
    if n == 0 then step else Iterate(NextStepOf(step), n - 1)
  }

  /**
   * The custom restriction button: the trimmed input is appended when it is non-empty
   * and not already listed; otherwise the list stays as it is.
   */
  function AddCustom(rs: seq<string>, input: string): (r: seq<string>)
    ensures |r| == |rs| || |r| == |rs| + 1
    ensures rs <= r
  {
    var t := Trim(input);
    if t != [] && t !in rs then rs + [t] else rs
  }

  /** An entry is added exactly when the trimmed input is new and non-empty, and it is that trimmed input. */
  lemma AddCustomSpec(rs: seq<string>, input: string)
    ensures |AddCustom(rs, input)| == |rs| + 1 <==> Trim(input) != [] && Trim(input) !in rs
    ensures |AddCustom(rs, input)| == |rs| + 1 ==> AddCustom(rs, input)[|rs|] == Trim(input)
    ensures Trim(input) in AddCustom(rs, input) || Trim(input) == []
    ensures forall x :: x in AddCustom(rs, input) ==> x in rs || x == Trim(input)
  {
  }

  /** Adding keeps the restrictions free of repeats, and adding the same text again changes nothing. */
  lemma AddCustomNoDuplicates(rs: seq<string>, input: string)
    requires NoDuplicates(rs)
    ensures NoDuplicates(AddCustom(rs, input))
    ensures AddCustom(AddCustom(rs, input), input) == AddCustom(rs, input)
  {
  }

  /** White space around a custom restriction never reaches the list, and padding the input changes nothing. */
  lemma AddCustomIgnoresPadding(rs: seq<string>, input: string)
    ensures AddCustom(rs, Trim(input)) == AddCustom(rs, input)
  {
    TrimIdempotent(input);
  }

  /** What the primary button does: publish or update on the last step, advance otherwise. */
  datatype PrimaryAction = Advance | Submit

  function PrimaryActionAt(step: int): (a: PrimaryAction)
    ensures a == Submit <==> step == LastStep
  {
    if step == LastStep then Submit else Advance
  }

  /** The primary button's label. */
  function PrimaryLabel(step: int, isEditing: bool): (s: string)
    ensures PrimaryActionAt(step) == Advance <==> s == "Next Step"
  {
    if step == LastStep then (if isEditing then "Update Post" else "Publish Post") else "Next Step"
  }

  /** The form component's state. */
  class PostFormPage {
    var currentStep: int
    var formData: PostData
    var customRestriction: string
    const isEditing: bool

    predicate Valid()
      reads this
    {
      InRange(currentStep)
    }

    /** The first step, the defaults overridden by `initialData`, and an empty custom restriction. */
    constructor(initialData: PartialPostData, editing: bool)
      ensures Valid()
      ensures currentStep == 0 && formData == Merge(Defaults, initialData) && customRestriction == ""
      ensures isEditing == editing
    {
      currentStep := 0;
      formData := Merge(Defaults, initialData);
      customRestriction := "";
      isEditing := editing;
    }

    method NextStep()
      modifies this
      ensures currentStep == NextStepOf(old(currentStep))
      ensures old(Valid()) ==> Valid()
      ensures formData == old(formData) && customRestriction == old(customRestriction)
    {
      currentStep := NextStepOf(currentStep);
      if old(Valid()) {
        StepMoves(old(currentStep));
      }
    }

    method PrevStep()
      modifies this
      ensures currentStep == PrevStepOf(old(currentStep))
      ensures old(Valid()) ==> Valid()
      ensures formData == old(formData) && customRestriction == old(customRestriction)
    {
      currentStep := PrevStepOf(currentStep);
      if old(Valid()) {
        StepMoves(old(currentStep));
      }
    }

    method ToggleFacility(facility: string)
      modifies this
      ensures formData == old(formData).(facilities := Toggle(old(formData).facilities, facility))
      ensures currentStep == old(currentStep) && customRestriction == old(customRestriction)
    {
      formData := formData.(facilities := Toggle(formData.facilities, facility));
    }

    method ToggleRestriction(restriction: string)
      modifies this
      ensures formData == old(formData).(restrictions := Toggle(old(formData).restrictions, restriction))
      ensures currentStep == old(currentStep) && customRestriction == old(customRestriction)
    {
      formData := formData.(restrictions := Toggle(formData.restrictions, restriction));
    }

    /** Typing into the custom restriction input. */
    method SetCustomRestriction(text: string)
      modifies this
      ensures customRestriction == text
      ensures currentStep == old(currentStep) && formData == old(formData)
    {
      customRestriction := text;
    }

    /** The Add button: on success the trimmed text is appended and the input cleared; otherwise nothing changes. */
    method AddCustomRestriction()
      modifies this
      ensures formData == old(formData).(restrictions := AddCustom(old(formData).restrictions, old(customRestriction)))
      ensures Trim(old(customRestriction)) != [] && Trim(old(customRestriction)) !in old(formData).restrictions ==>
                customRestriction == ""
      ensures !(Trim(old(customRestriction)) != [] && Trim(old(customRestriction)) !in old(formData).restrictions) ==>
                formData == old(formData) && customRestriction == old(customRestriction)
      ensures currentStep == old(currentStep)
    {
      var t := Trim(customRestriction);
      if t != [] && t !in formData.restrictions {
        formData := formData.(restrictions := formData.restrictions + [t]);
        customRestriction := "";
      }
    }

    method RemoveImage(index: int)
      modifies this
      ensures formData == old(formData).(images := RemoveIndex(old(formData).images, index))
      ensures currentStep == old(currentStep) && customRestriction == old(customRestriction)
    {
      formData := formData.(images := RemoveIndex(formData.images, index));
    }

    /** The primary button: on the last step it submits and goes to the dashboard, elsewhere it advances. */
    method Primary() returns (dest: Destination)
      modifies this
      ensures old(currentStep) == LastStep ==> dest == DashboardRoute && currentStep == old(currentStep)
      ensures old(currentStep) != LastStep ==> dest == Stay && currentStep == NextStepOf(old(currentStep))
      ensures formData == old(formData) && customRestriction == old(customRestriction)
    {
      if PrimaryActionAt(currentStep) == Submit {
        dest := DashboardRoute;
      } else {
        currentStep := NextStepOf(currentStep);
        dest := Stay;
      }
    }
  }

  /** Removing photo `index` drops exactly that photo and keeps the others in order. */
  lemma RemoveImageSpec(images: seq<string>, index: int)
    requires 0 <= index < |images|
    ensures |RemoveIndex(images, index)| == |images| - 1
    ensures forall j :: 0 <= j < index ==> RemoveIndex(images, index)[j] == images[j]
    ensures forall j :: index <= j < |images| - 1 ==> RemoveIndex(images, index)[j] == images[j + 1]
    ensures multiset(RemoveIndex(images, index)) + multiset{images[index]} == multiset(images)
  {
    var r := RemoveIndex(images, index);
    var p, q := images[..index], images[index + 1..];
    assert r == p + q;
    forall j | 0 <= j < index ensures r[j] == images[j] {
      assert r[j] == p[j];
    }
    forall j | index <= j < |images| - 1 ensures r[j] == images[j + 1] {
      assert r[j] == q[j - index];
    }
    assert images == p + [images[index]] + q;
  }

  /**
   * Toggling a facility or restriction flips only its own membership, leaves the
   * other choices in their order, and twice restores an absent one.
   */
  lemma ToggleChoice(choices: seq<string>, c: string, other: string)
    ensures c in Toggle(choices, c) <==> c !in choices
    ensures RemoveAll(Toggle(choices, c), c) == RemoveAll(choices, c)
    ensures other != c ==> (other in Toggle(choices, c) <==> other in choices)
    ensures c !in choices ==> Toggle(Toggle(choices, c), c) == choices
    ensures NoDuplicates(choices) ==> NoDuplicates(Toggle(choices, c))
  {
    ToggleFlipsMembership(choices, c, other);
    ToggleKeepsOthers(choices, c);
    if c !in choices {
      ToggleTwiceAbsent(choices, c);
    }
    if NoDuplicates(choices) {
      ToggleNoDuplicates(choices, c);
    }
  }
}
