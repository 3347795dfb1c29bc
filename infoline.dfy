/**
 * The summary line shown under the preview:
 * "{Size} Base | {Faction}" followed by the ticked overlays, if any.
 */
module InfoLine {
  import opened Text
  import opened Paths
  import opened Layers

  /** Shown when no size is selected. */
  const NoBaseText := "No base selected"

  /** The size with its first letter upper-cased. */
  function SizeText(size: string): string
  {
    Capitalize(size)
  }

  /** `Capitalize` on every piece. */
  function CapitalizeAll(parts: seq<string>): (r: seq<string>)
    ensures |r| == |parts|
  {
    seq(|parts|, i requires 0 <= i < |parts| => Capitalize(parts[i]))
  }

  /**
   * The faction's display name: "No Faction" for "none", otherwise the
   * hyphen-separated words, each capitalised, joined by spaces.
   */
  function FactionText(faction: string): string
  {
    if faction == "none" then "No Faction"
    else Join(CapitalizeAll(Split(faction, '-')), " ")
  }

  /** The label of an overlay in the summary line. */
  function Label(o: Overlay): string
  {
    match o
    case Nameplate => "Nameplate"
    case FrontArc => "Front Arc"
    case RearArc => "Rear Arc"
  }

  /** The labels of the ticked overlays, nameplate first, rear arc last. */
  function OverlayLabels(flags: OverlayFlags): seq<string>
  {
    (if flags.nameplate then [Label(Nameplate)] else [])
    + (if flags.frontarc then [Label(FrontArc)] else [])
    + (if flags.reararc then [Label(RearArc)] else [])
  }

  /** " | Overlays: a, b" when some overlay is ticked, nothing otherwise. */
  function OverlaysText(flags: OverlayFlags): string
  {
    var labels := OverlayLabels(flags);
    if |labels| > 0 then " | Overlays: " + Join(labels, ", ") else ""
  }

  /** The whole summary line for a state. */
  function InfoText(st: UiState): string
  {
    if st.selectedSize == [] then NoBaseText
    else SizeText(st.selectedSize) + " Base | " + FactionText(st.selectedFaction) + OverlaysText(st.overlays)
  }

  /**
   * The words joined by spaces, every word but possibly the first
   * capitalised: the shape the faction name takes part-way through.
   */
  function CapWords(parts: seq<string>, capFirst: bool): string
    requires |parts| >= 1
  {
    Join([if capFirst then Capitalize(parts[0]) else parts[0]] + CapitalizeAll(parts[1..]), " ")
  }

  /** The title-cased faction name after one more character of input. */
  lemma CapWordsStep(f: string, capFirst: bool)
    requires f != []
    ensures f[0] == '-' ==>
      CapWords(Split(f, '-'), capFirst) == " " + CapWords(Split(f[1..], '-'), true)
    ensures f[0] != '-' ==>
      CapWords(Split(f, '-'), capFirst) == [if capFirst then Upper(f[0]) else f[0]] + CapWords(Split(f[1..], '-'), false)
  {
    var rest := Split(f[1..], '-');
    var tail := CapitalizeAll(rest[1..]);
    assert CapitalizeAll(rest) == [Capitalize(rest[0])] + tail;
    if f[0] == '-' {
      var whole := [[]] + CapitalizeAll(rest);
      assert Split(f, '-') == [[]] + rest;
      assert CapitalizeAll((Split(f, '-'))[1..]) == CapitalizeAll(rest);
      JoinEmptyHead(CapitalizeAll(rest), " ");
    } else {
      var c := if capFirst then Upper(f[0]) else f[0];
      var pieces := Split(f, '-');
      assert pieces[0] == [f[0]] + rest[0] && pieces[1..] == rest[1..];
      assert (if capFirst then Capitalize(pieces[0]) else pieces[0]) == [c] + rest[0];
      JoinHeadAppend([c], rest[0], tail, " ");
    }
  }

  /**
   * Character by character: a hyphen becomes a space, the first letter of
   * every word is upper-cased (the very first only when `capFirst`), and
   * every other character is kept.
   */
  lemma {:induction false} CapWordsAt(f: string, capFirst: bool)
    ensures |CapWords(Split(f, '-'), capFirst)| == |f|
    ensures forall i {:trigger CapWords(Split(f, '-'), capFirst)[i]} :: 0 <= i < |f| ==>
      CapWords(Split(f, '-'), capFirst)[i] ==
        if f[i] == '-' then ' '
        else if (i == 0 && capFirst) || (i > 0 && f[i - 1] == '-') then Upper(f[i])
        else f[i]
  {
    if f == [] {
      assert Split(f, '-') == [[]];
      assert CapWords(Split(f, '-'), capFirst) == [];
    } else {
      CapWordsStep(f, capFirst);
      var next := f[0] == '-';
      CapWordsAt(f[1..], next);
      forall i | 1 <= i < |f|
        ensures CapWords(Split(f, '-'), capFirst)[i] ==
          if f[i] == '-' then ' '
          else if (i == 0 && capFirst) || (i > 0 && f[i - 1] == '-') then Upper(f[i])
          else f[i]
      {
        assert f[1..][i - 1] == f[i];
        if i > 1 {
          assert f[1..][i - 2] == f[i - 1];
        }
      }
    }
  }

  /**
   * The faction's display name, character by character: hyphens become
   * spaces and the first letter of each hyphen-separated word is upper-cased.
   */
  lemma FactionTextAt(faction: string)
    requires faction != "none"
    ensures |FactionText(faction)| == |faction|
    ensures forall i {:trigger FactionText(faction)[i]} :: 0 <= i < |faction| ==>
      FactionText(faction)[i] ==
        if faction[i] == '-' then ' '
        else if i == 0 || faction[i - 1] == '-' then Upper(faction[i])
        else faction[i]
  {
    var parts := Split(faction, '-');
    assert CapitalizeAll(parts) == [Capitalize(parts[0])] + CapitalizeAll(parts[1..]);
    assert FactionText(faction) == CapWords(parts, true);
    CapWordsAt(faction, true);
    forall i | 0 <= i < |faction|
      ensures FactionText(faction)[i] ==
        if faction[i] == '-' then ' '
        else if i == 0 || faction[i - 1] == '-' then Upper(faction[i])
        else faction[i]
    {
      assert FactionText(faction)[i] == CapWords(parts, true)[i];
    }
  }

  /** The size's display name: same length, first letter upper-cased, the rest kept. */
  lemma SizeTextSpec(size: string)
    requires size != []
    ensures |SizeText(size)| == |size| && SizeText(size)[0] == Upper(size[0])
    ensures SizeText(size)[1..] == size[1..]
  {
  }

  /**
   * The overlay part of the line is empty exactly when no box is ticked; it
   * lists each ticked overlay once, nameplate first and rear arc last.
   */
  lemma OverlayLabelsSpec(flags: OverlayFlags)
    ensures OverlaysText(flags) == [] <==> !flags.nameplate && !flags.frontarc && !flags.reararc
    ensures forall o: Overlay :: Label(o) in OverlayLabels(flags) <==> o.Selected(flags)
    ensures forall i, j :: 0 <= i < j < |OverlayLabels(flags)| ==> OverlayLabels(flags)[i] != OverlayLabels(flags)[j]
  {
  }

  /** `s` reversed. */
  function Reverse<T>(s: seq<T>): (r: seq<T>)
    ensures |r| == |s|
  {
    if s == [] then [] else Reverse(s[1..]) + [s[0]]
  }

  /**
   * When every ticked overlay's file loads, the line lists the drawn
   * overlays from the top layer down: the reverse of the drawing order.
   */
  lemma LabelsReverseDrawOrder(st: UiState, assets: Assets)
    requires forall o: Overlay :: o.Selected(st.overlays) ==> OverlayImage(st, assets, o).Some?
    ensures OverlayLabels(st.overlays) == Reverse(Labels(DrawnOverlays(st, assets)))
  {
    DrawnOverlaysUnfold(st, assets);
    var r := if Shown(st, assets, RearArc) then [RearArc] else [];
    var f := if Shown(st, assets, FrontArc) then [FrontArc] else [];
    var n := if Shown(st, assets, Nameplate) then [Nameplate] else [];
    assert Shown(st, assets, RearArc) == st.overlays.reararc;
    assert Shown(st, assets, FrontArc) == st.overlays.frontarc;
    assert Shown(st, assets, Nameplate) == st.overlays.nameplate;
    calc {
      Reverse(Labels(r + f + n));
      { LabelsAppend(r + f, n); LabelsAppend(r, f); }
      Reverse(Labels(r) + Labels(f) + Labels(n));
      { ReverseAppend(Labels(r) + Labels(f), Labels(n)); ReverseAppend(Labels(r), Labels(f)); }
      Reverse(Labels(n)) + Reverse(Labels(f)) + Reverse(Labels(r));
    }
  }

  /** Reversing a concatenation reverses the order of the parts. */
  lemma {:induction false} ReverseAppend<T>(a: seq<T>, b: seq<T>)
    ensures Reverse(a + b) == Reverse(b) + Reverse(a)
  {
    if a == [] {
      assert a + b == b;
    } else {
      assert (a + b)[1..] == a[1..] + b;
      ReverseAppend(a[1..], b);
    }
  }

  /** The labels of a concatenation are the concatenated labels. */
  lemma LabelsAppend(a: seq<Overlay>, b: seq<Overlay>)
    ensures Labels(a + b) == Labels(a) + Labels(b)
  {
  }

  /** The labels of a list of overlays. */
  function Labels(os: seq<Overlay>): (r: seq<string>)
    ensures |r| == |os|
  {
    seq(|os|, i requires 0 <= i < |os| => Label(os[i]))
  }

  /**
   * The summary line: "No base selected" without a size; otherwise the size
   * with its first letter upper-cased, then " Base | ", then the faction
   * ("No Faction" for "none", else hyphens turned to spaces and each word
   * capitalised), then " | Overlays: " and the ticked labels, nameplate
   * first and rear arc last, or nothing when no box is ticked.
   */
  lemma InfoTextSpec(st: UiState)
    ensures st.selectedSize == [] ==> InfoText(st) == "No base selected"
    ensures st.selectedSize != [] ==>
      var size, faction, line := st.selectedSize, st.selectedFaction, InfoText(st);
      var head := [Upper(size[0])] + size[1..] + " Base | ";
      var fl := if faction == "none" then 10 else |faction|;
      && |head| + fl <= |line|
      && line[..|head|] == head
      && (faction == "none" ==> line[|head|..|head| + fl] == "No Faction")
      && (faction != "none" ==> forall i :: 0 <= i < |faction| ==>
            line[|head| + i] ==
              if faction[i] == '-' then ' '
              else if i == 0 || faction[i - 1] == '-' then Upper(faction[i])
              else faction[i])
      && (line[|head| + fl..] == [] <==> !st.overlays.nameplate && !st.overlays.frontarc && !st.overlays.reararc)
      && (line[|head| + fl..] != [] ==> line[|head| + fl..] == " | Overlays: " + Join(OverlayLabels(st.overlays), ", "))
  {
    if st.selectedSize != [] {
      var size, faction, line := st.selectedSize, st.selectedFaction, InfoText(st);
      var head := [Upper(size[0])] + size[1..] + " Base | ";
      SizeTextSpec(size);
      assert SizeText(size) == [SizeText(size)[0]] + SizeText(size)[1..];
      var ft, ot := FactionText(faction), OverlaysText(st.overlays);
      assert line == head + ft + ot;
      if faction != "none" {
        FactionTextAt(faction);
        forall i | 0 <= i < |faction|
          ensures line[|head| + i] ==
            if faction[i] == '-' then ' '
            else if i == 0 || faction[i - 1] == '-' then Upper(faction[i])
            else faction[i]
        {
          assert line[|head| + i] == ft[i];
        }
      }
      assert line[|head| + |ft|..] == ot;
      OverlayLabelsSpec(st.overlays);
    }
  }
}
