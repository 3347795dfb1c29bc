/**
 * Placement of the pilot name and the initiative over the nameplate
 * (`drawTextOverlays`): one layout profile per base size, every position and
 * font size a fixed fraction of the canvas.
 */
module Layout {
  import opened Text
  import opened Paths
  import opened Layers

  /**
   * A layout profile. The `X` anchors and the font sizes are fractions of
   * the canvas width, the `Y` anchors fractions of its height.
   */
  datatype Profile = Profile(
    nameX: real, nameY: real, nameFontSize: real,
    initiativeX: real, initiativeY: real, initiativeFontSize: real)

  const SmallProfile := Profile(0.55, 0.78, 0.038, 0.12, 0.78, 0.08)
  const MediumProfile := Profile(0.55, 0.80, 0.032, 0.11, 0.80, 0.065)
  const LargeProfile := Profile(0.55, 0.84, 0.027, 0.095, 0.84, 0.055)

  /** The `sizeConfig` table. */
  const SizeConfig: map<string, Profile> :=
    map["small" := SmallProfile, "medium" := MediumProfile, "large" := LargeProfile]

  /** `sizeConfig[size] || sizeConfig.small` */
  function ProfileFor(size: string): Profile
  {
    if size in SizeConfig then SizeConfig[size] else SizeConfig["small"]
  }

  /** A fraction of a canvas dimension, in pixels. */
  function At(fraction: real, extent: nat): real
  {
    fraction * extent as real
  }

  /** The pilot name and the initiative, each drawn only when it is not blank. */
  function TextOps(st: UiState, width: nat, height: nat): seq<DrawOp>
  {
    var p := ProfileFor(st.selectedSize);
    (if HasText(st.pilotName)
     then [FillText(st.pilotName, At(p.nameX, width), At(p.nameY, height), At(p.nameFontSize, width))]
     else [])
    + (if HasText(st.initiative)
       then [FillText(st.initiative, At(p.initiativeX, width), At(p.initiativeY, height),
                      At(p.initiativeFontSize, width))]
       else [])
  }

  /**
   * The profile of a size is its own entry for "small", "medium" and
   * "large", and the small one for anything else. In every profile the name
   * is centred at 0.55 of the width, on the same line as the initiative, and
   * the initiative sits left of the name in a larger font.
   */
  lemma ProfileForSpec(size: string)
    ensures size == "small" ==> ProfileFor(size) == SmallProfile
    ensures size == "medium" ==> ProfileFor(size) == MediumProfile
    ensures size == "large" ==> ProfileFor(size) == LargeProfile
    ensures size != "small" && size != "medium" && size != "large" ==> ProfileFor(size) == SmallProfile
    ensures ProfileFor(size).nameX == 0.55
    ensures ProfileFor(size).initiativeY == ProfileFor(size).nameY
    ensures ProfileFor(size).initiativeX < ProfileFor(size).nameX
    ensures ProfileFor(size).initiativeFontSize > ProfileFor(size).nameFontSize
  {
  }

  /** The larger the base, the lower the text line and the smaller its fonts relative to the width. */
  lemma ProfilesScale()
    ensures SmallProfile.nameY < MediumProfile.nameY < LargeProfile.nameY
    ensures SmallProfile.nameFontSize > MediumProfile.nameFontSize > LargeProfile.nameFontSize
    ensures SmallProfile.initiativeFontSize > MediumProfile.initiativeFontSize > LargeProfile.initiativeFontSize
  {
  }

  /**
   * The pilot name is drawn when it holds a non-blank character, as given
   * (untrimmed), centred at 0.55 of the width on its profile's text line;
   * the initiative likewise at its own anchor, always after the name.
   * Nothing else is drawn.
   */
  lemma TextOpsSpec(st: UiState, width: nat, height: nat)
    ensures var ops := TextOps(st, width, height);
      var p := ProfileFor(st.selectedSize);
      && |ops| == (if HasText(st.pilotName) then 1 else 0) + (if HasText(st.initiative) then 1 else 0)
      && (HasText(st.pilotName) ==>
            ops[0].FillText? && ops[0].text == st.pilotName
            && ops[0].x == At(0.55, width) && ops[0].y == At(p.nameY, height))
      && (HasText(st.initiative) ==>
            ops[|ops| - 1].FillText? && ops[|ops| - 1].text == st.initiative
            && ops[|ops| - 1].x == At(p.initiativeX, width) && ops[|ops| - 1].y == At(p.initiativeY, height))
  {
    ProfileForSpec(st.selectedSize);
  }
}
