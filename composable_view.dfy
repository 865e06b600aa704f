/**
 * The attribute handling shared by every LiveView composable: the phx-value
 * map and the value it exposes, the merge of an "on changed" value into it,
 * the scrolling flags, and the classification of the size, width, height,
 * padding, background and aspect-ratio attribute strings into modifier
 * elements.
 *
 * A Compose `Modifier` is the sequence of its elements; `then` appends. The
 * percentage of a fraction is kept as an integer (`75%` is 75, where the
 * source computes the float 0.75).
 */
module ComposableView {
  import opened Wrappers

  // Attribute names handled in common by every builder.
  const AttrAspectRatio: string := "aspectRatio"
  const AttrBackground: string := "background"
  const AttrClass: string := "class"
  const AttrClip: string := "clip"
  const AttrHeight: string := "height"
  const AttrHorizontalPadding: string := "horizontalPadding"
  const AttrPadding: string := "padding"
  const AttrPhxClick: string := "phx-click"
  const AttrPhxValue: string := "phx-value"
  const AttrPhxValueNamed: string := "phx-value-"
  const AttrSize: string := "size"
  const AttrTestTag: string := "testTag"
  const AttrVerticalPadding: string := "verticalPadding"
  const AttrWidth: string := "width"

  /** The map key under which a plain `phx-value` is stored. */
  const KeyPhxValue: string := "value"

  // Size keywords.
  const SizeFill: string := "fill"
  const SizeWrap: string := "wrap"
  const SizeIntrinsicMin: string := "intrinsicMin"
  const SizeIntrinsicMax: string := "intrinsicMax"

  // Scrolling keywords.
  const ScrollHorizontal: string := "horizontal"
  const ScrollVertical: string := "vertical"
  const ScrollBoth: string := "both"

  datatype IntrinsicSize = Min | Max

  /** Which edges a padding applies to. */
  datatype Edges = AllEdges | VerticalEdges | HorizontalEdges

  /** One element of a modifier chain, recording the argument its factory was given. */
  datatype ModifierElement =
    | SizeDp(dp: nat) | FillMaxSize | WrapContentSize
    | Padding(edges: Edges, dp: nat)
    | HeightDp(dp: nat) | FillMaxHeight | WrapContentHeight | HeightIntrinsic(intrinsic: IntrinsicSize)
    | FillMaxHeightFraction(percent: nat)
    | WidthDp(dp: nat) | FillMaxWidth | WrapContentWidth | WidthIntrinsic(intrinsic: IntrinsicSize)
    | FillMaxWidthFraction(percent: nat)
    | Background(color: string)
    | AspectRatio(ratio: string)
    | Clip(shape: string)
    | Clickable(event: string)
    | TestTag(tag: string)
    | StyleClass(style: string)

  /** A Compose modifier: its elements, outermost first. */
  type Modifier = seq<ModifierElement>

  /** `modifier.then(element)` when the classifier produced one, else the modifier unchanged. */
  function Then(modifier: Modifier, element: Option<ModifierElement>): Modifier
  {
    match element
    case Some(e) => modifier + [e]
    case None => modifier
  }

  /** What a phx-value binding exposes: one value, or the whole map of named values. */
  datatype AnyValue<V> = Single(value: V) | Entries(entries: map<string, V>)

  /** The properties common to every composable; `V` stands for the values (`Any`) stored under phx-value keys. */
  datatype CommonComposableProperties<V> = CommonComposableProperties(
    hasVerticalScrolling: bool,
    hasHorizontalScrolling: bool,
    modifier: Modifier,
    value: map<string, V>)
  {
    /** The `phxValue` getter: null when no value is bound, the bare value when only `value` is bound, else the map. */
    function PhxValue(): Option<AnyValue<V>>
    {
      if |value| == 0 then None
      else if |value| == 1 && KeyPhxValue in value then Some(Single(value[KeyPhxValue]))
      else Some(Entries(value))
    }
  }

  /** The value sent with an "on changed" event: `value` merged under `key` into the component's phx-values. */
  function MergeValueWithPhxValue<V>(props: CommonComposableProperties<V>, key: string, value: V): AnyValue<V>
  {
    if props.PhxValue() == None then
      if key == KeyPhxValue then Single(value) else Entries(map[key := value])
    else if |props.value| == 1 && KeyPhxValue in props.value then
      if key == KeyPhxValue then Single(value) else Entries(props.value[key := value])
    else
      Entries(props.value[key := value])
  }

  lemma SingletonKeys<V>(m: map<string, V>, k: string)
    ensures (|m| == 1 && k in m) <==> m.Keys == {k}
  {
    if |m| == 1 && k in m {
      var rest := m.Keys - {k};
      assert m.Keys == rest + {k};
      assert |rest| == 0;
    }
    if m.Keys == {k} {
      assert |m| == |m.Keys|;
    }
  }

  /**
   * The three outcomes of `phxValue`: nothing for an empty map, the bare entry
   * for a map whose only key is `value`, the whole map otherwise.
   */
  lemma PhxValueCases<V>(props: CommonComposableProperties<V>)
    ensures props.PhxValue() == None <==> props.value == map[]
    ensures props.value.Keys == {KeyPhxValue} ==> props.PhxValue() == Some(Single(props.value[KeyPhxValue]))
    ensures props.value != map[] && props.value.Keys != {KeyPhxValue} ==> props.PhxValue() == Some(Entries(props.value))
  {
    SingletonKeys(props.value, KeyPhxValue);
    if props.value == map[] {
      assert |props.value| == 0;
    }
    if |props.value| == 0 {
      assert props.value == map[];
    }
  }

  /**
   * Merging is exposing the updated map: the merged value is exactly what
   * `phxValue` gives once `key` is bound to `value`. So a lone `value` key
   * yields the bare value, and every other entry is kept unchanged.
   */
  lemma MergeIsPhxValueOfUpdate<V>(props: CommonComposableProperties<V>, key: string, value: V)
    ensures Some(MergeValueWithPhxValue(props, key, value)) == props.(value := props.value[key := value]).PhxValue()
  {
    var updated := props.value[key := value];
    SingletonKeys(props.value, KeyPhxValue);
    SingletonKeys(updated, KeyPhxValue);
    assert updated.Keys == props.value.Keys + {key};
    if props.value == map[] {
      assert updated == map[key := value];
    } else {
      assert |props.value| != 0;
    }
  }

  /**
   * The four outcomes of a merge: with nothing bound, the bare value for key
   * `value` and a one-entry map otherwise; with only `value` bound and key
   * `value`, the bare new value; in every other case the bound map with `key`
   * set to `value` and every other entry kept.
   */
  lemma MergeCases<V>(props: CommonComposableProperties<V>, key: string, value: V)
    ensures props.value == map[] && key == KeyPhxValue ==> MergeValueWithPhxValue(props, key, value) == Single(value)
    ensures props.value == map[] && key != KeyPhxValue ==> MergeValueWithPhxValue(props, key, value) == Entries(map[key := value])
    ensures props.value.Keys == {KeyPhxValue} && key == KeyPhxValue ==> MergeValueWithPhxValue(props, key, value) == Single(value)
    ensures props.value != map[] && !(props.value.Keys == {KeyPhxValue} && key == KeyPhxValue) ==>
              MergeValueWithPhxValue(props, key, value) == Entries(props.value[key := value])
  {
    PhxValueCases(props);
    SingletonKeys(props.value, KeyPhxValue);
  }

  // ---------------------------------------------------------------------------
  // Digit strings
  // ---------------------------------------------------------------------------

  predicate IsDigit(c: char)
  {
    '0' <= c <= '9'
  }

  predicate AllDigits(s: string)
  {
    forall i :: 0 <= i < |s| ==> IsDigit(s[i])
  }

  /** `isNotEmptyAndIsDigitsOnly`. */
  predicate IsNotEmptyAndIsDigitsOnly(s: string)
  {
    |s| > 0 && AllDigits(s)
  }

  /** The number a digit string denotes (`toInt`), most significant digit first. */
  function DigitsValue(s: string): nat
    requires AllDigits(s)
  {
    if s == [] then 0 else DigitsValue(s[..|s| - 1]) * 10 + (s[|s| - 1] as int - '0' as int)
  }

  /** The decimal rendering of `n`, with no leading zero. */
  function Decimal(n: nat): string
  {
    if n < 10 then [('0' as int + n) as char]
    else Decimal(n / 10) + [('0' as int + n % 10) as char]
  }

  /** Rendering a number in decimal and reading it back gives the number. */
  lemma {:induction false} DecimalRoundTrip(n: nat)
    ensures IsNotEmptyAndIsDigitsOnly(Decimal(n)) && DigitsValue(Decimal(n)) == n
  {
    var d := Decimal(n);
    if n >= 10 {
      DecimalRoundTrip(n / 10);
      var last := [('0' as int + n % 10) as char];
      assert d == Decimal(n / 10) + last;
      assert d[..|d| - 1] == Decimal(n / 10);
      assert AllDigits(d) by {
        forall i | 0 <= i < |d| ensures IsDigit(d[i]) {
          if i < |d| - 1 { assert d[i] == Decimal(n / 10)[i]; }
        }
      }
    }
  }

  /** The percentage of a `<digits>%` string: null unless the string has at least two characters and all but the last are digits. */
  function HandleFraction(value: string): Option<nat>
  {
    if |value| > 1 then
      var percentage := value[..|value| - 1];
      if IsNotEmptyAndIsDigitsOnly(percentage) then Some(DigitsValue(percentage)) else None
    else None
  }

  /** A number followed by any one character (the `%` sign) reads back as that number. */
  lemma HandleFractionOfDecimal(n: nat, sign: char)
    ensures HandleFraction(Decimal(n) + [sign]) == Some(n)
  {
    DecimalRoundTrip(n);
    var s := Decimal(n) + [sign];
    assert s[..|s| - 1] == Decimal(n);
  }

  /** A fraction is read exactly when some digit string precedes the last character, and then it is that string's value. */
  lemma HandleFractionCharacterized(value: string)
    ensures HandleFraction(value).Some?
        <==> exists digits: string, last: char :: IsNotEmptyAndIsDigitsOnly(digits) && value == digits + [last]
    ensures HandleFraction(value).Some? ==> HandleFraction(value).value == DigitsValue(value[..|value| - 1])
  {
    if HandleFraction(value).Some? {
      var digits, last := value[..|value| - 1], value[|value| - 1];
      assert value == digits + [last];
    }
    if exists digits: string, last: char :: IsNotEmptyAndIsDigitsOnly(digits) && value == digits + [last] {
      var digits: string, last: char :| IsNotEmptyAndIsDigitsOnly(digits) && value == digits + [last];
      assert value[..|value| - 1] == digits;
    }
  }

  lemma HandleFractionRejectsShort(value: string)
    requires |value| <= 1
    ensures HandleFraction(value) == None
  {
  }

  // ---------------------------------------------------------------------------
  // Attribute classifiers: the element each attribute string adds, if any
  // ---------------------------------------------------------------------------

  function SizeElement(size: string): Option<ModifierElement>
  {
    if IsNotEmptyAndIsDigitsOnly(size) then Some(SizeDp(DigitsValue(size)))
    else if size == SizeFill then Some(FillMaxSize)
    else if size == SizeWrap then Some(WrapContentSize)
    else None
  }

  function HeightElement(height: string): Option<ModifierElement>
  {
    if IsNotEmptyAndIsDigitsOnly(height) then Some(HeightDp(DigitsValue(height)))
    else if height == SizeFill then Some(FillMaxHeight)
    else if height == SizeWrap then Some(WrapContentHeight)
    else if height == SizeIntrinsicMin then Some(HeightIntrinsic(Min))
    else if height == SizeIntrinsicMax then Some(HeightIntrinsic(Max))
    else if |height| > 0 && height[|height| - 1] == '%' then
      match HandleFraction(height)
      case Some(percent) => Some(FillMaxHeightFraction(percent))
      case None => None
    else None
  }

  function WidthElement(width: string): Option<ModifierElement>
  {
    if IsNotEmptyAndIsDigitsOnly(width) then Some(WidthDp(DigitsValue(width)))
    else if width == SizeFill then Some(FillMaxWidth)
    else if width == SizeWrap then Some(WrapContentWidth)
    else if width == SizeIntrinsicMin then Some(WidthIntrinsic(Min))
    else if width == SizeIntrinsicMax then Some(WidthIntrinsic(Max))
    else if |width| > 0 && width[|width| - 1] == '%' then
      match HandleFraction(width)
      case Some(percent) => Some(FillMaxWidthFraction(percent))
      case None => None
    else None
  }

  function PaddingElement(edges: Edges, padding: string): Option<ModifierElement>
  {
    if IsNotEmptyAndIsDigitsOnly(padding) then Some(Padding(edges, DigitsValue(padding))) else None
  }

  function BackgroundElement(background: string): Option<ModifierElement>
  {
    if |background| > 0 then Some(Background(background)) else None
  }

  function AspectRatioElement(aspectRatio: string): Option<ModifierElement>
  {
    if |aspectRatio| > 0 then Some(AspectRatio(aspectRatio)) else None
  }

  /** The size keywords, none of which is a digit string or ends in `%`. */
  lemma KeywordsAreNotNumbers()
    ensures forall k :: k in [SizeFill, SizeWrap, SizeIntrinsicMin, SizeIntrinsicMax] ==>
              !IsNotEmptyAndIsDigitsOnly(k) && k[|k| - 1] != '%'
  {
    assert !IsDigit(SizeFill[0]) && !IsDigit(SizeWrap[0]);
    assert !IsDigit(SizeIntrinsicMin[0]) && !IsDigit(SizeIntrinsicMax[0]);
  }

  /** `size` recognises exactly digit strings, `fill` and `wrap`; a number `n` sizes to exactly `n` dp. */
  lemma SizeClassified(size: string, n: nat)
    ensures SizeElement(size).Some? <==> IsNotEmptyAndIsDigitsOnly(size) || size == SizeFill || size == SizeWrap
    ensures SizeElement(Decimal(n)) == Some(SizeDp(n))
    ensures SizeElement(SizeFill) == Some(FillMaxSize) && SizeElement(SizeWrap) == Some(WrapContentSize)
    ensures SizeElement(size + "%") == None
  {
    DecimalRoundTrip(n);
    KeywordsAreNotNumbers();
    var pct := size + "%";
    assert !IsDigit(pct[|pct| - 1]);
    assert |pct| != |SizeFill| || pct[3] != SizeFill[3];
    assert |pct| != |SizeWrap| || pct[3] != SizeWrap[3];
  }

  /** A number followed by `%` fills that percentage of the available width. */
  lemma WidthOfPercent(n: nat)
    ensures WidthElement(Decimal(n) + "%") == Some(FillMaxWidthFraction(n))
  {
    var s := Decimal(n) + "%";
    HandleFractionOfDecimal(n, '%');
    assert !IsDigit(s[|s| - 1]);
    NotKeyword(s);
  }

  /** A number followed by `%` fills that percentage of the available height. */
  lemma HeightOfPercent(n: nat)
    ensures HeightElement(Decimal(n) + "%") == Some(FillMaxHeightFraction(n))
  {
    var s := Decimal(n) + "%";
    HandleFractionOfDecimal(n, '%');
    assert !IsDigit(s[|s| - 1]);
    NotKeyword(s);
  }

  lemma NotKeyword(s: string)
    requires |s| > 0 && s[|s| - 1] == '%'
    ensures s != SizeFill && s != SizeWrap && s != SizeIntrinsicMin && s != SizeIntrinsicMax
  {
  }

  /**
   * `width` reads a number as dp, the four keywords as their modes, a `<digits>%`
   * string as a fraction, and adds nothing for anything else (a lone `%` included).
   */
  lemma WidthClassified(width: string, n: nat)
    ensures WidthElement(Decimal(n)) == Some(WidthDp(n))
    ensures WidthElement(SizeFill) == Some(FillMaxWidth) && WidthElement(SizeWrap) == Some(WrapContentWidth)
    ensures WidthElement(SizeIntrinsicMin) == Some(WidthIntrinsic(Min))
    ensures WidthElement(SizeIntrinsicMax) == Some(WidthIntrinsic(Max))
    ensures WidthElement("%") == None
    ensures WidthElement(width).Some? <==>
              IsNotEmptyAndIsDigitsOnly(width) || width in {SizeFill, SizeWrap, SizeIntrinsicMin, SizeIntrinsicMax}
              || (|width| > 0 && width[|width| - 1] == '%' && HandleFraction(width).Some?)
  {
    DecimalRoundTrip(n);
    KeywordsAreNotNumbers();
    assert !IsDigit("%"[0]);
  }

  /** `height` classifies exactly as `width` does. */
  lemma HeightClassified(height: string, n: nat)
    ensures HeightElement(Decimal(n)) == Some(HeightDp(n))
    ensures HeightElement(SizeFill) == Some(FillMaxHeight) && HeightElement(SizeWrap) == Some(WrapContentHeight)
    ensures HeightElement(SizeIntrinsicMin) == Some(HeightIntrinsic(Min))
    ensures HeightElement(SizeIntrinsicMax) == Some(HeightIntrinsic(Max))
    ensures HeightElement("%") == None
    ensures HeightElement(height).Some? <==>
              IsNotEmptyAndIsDigitsOnly(height) || height in {SizeFill, SizeWrap, SizeIntrinsicMin, SizeIntrinsicMax}
              || (|height| > 0 && height[|height| - 1] == '%' && HandleFraction(height).Some?)
  {
    DecimalRoundTrip(n);
    KeywordsAreNotNumbers();
    assert !IsDigit("%"[0]);
  }

  /** Padding adds an element for exactly the non-empty digit strings; the number `n` pads by `n` dp. */
  lemma PaddingClassified(edges: Edges, padding: string, n: nat)
    ensures PaddingElement(edges, padding).Some? <==> IsNotEmptyAndIsDigitsOnly(padding)
    ensures PaddingElement(edges, Decimal(n)) == Some(Padding(edges, n))
  {
    DecimalRoundTrip(n);
  }

  /** `background` and `aspectRatio` add an element, carrying the string itself, for exactly the non-empty strings. */
  lemma NonEmptyClassified(s: string)
    ensures BackgroundElement(s).Some? <==> s != []
    ensures AspectRatioElement(s).Some? <==> s != []
    ensures s != [] ==> BackgroundElement(s) == Some(Background(s)) && AspectRatioElement(s) == Some(AspectRatio(s))
  {
  }

  // ---------------------------------------------------------------------------
  // The phx-value key an attribute name binds
  // ---------------------------------------------------------------------------

  predicate StartsWith(s: string, prefix: string)
  {
    |prefix| <= |s| && s[..|prefix|] == prefix
  }

  /** The key the `value` setter writes for an attribute name, or None when the name binds no phx-value. */
  function PhxValueKey(attributeName: string): Option<string>
  {
    if attributeName == AttrPhxValue then Some(KeyPhxValue)
    else if StartsWith(attributeName, AttrPhxValueNamed) then Some(attributeName[|AttrPhxValueNamed|..])
    else None
  }

  /**
   * `phx-value` binds `value`, `phx-value-<k>` binds `<k>` (so `phx-value-value`
   * binds `value` too), and no other name binds anything.
   */
  lemma PhxValueKeyNamed(attributeName: string, k: string)
    ensures PhxValueKey(AttrPhxValue) == Some(KeyPhxValue)
    ensures PhxValueKey(AttrPhxValueNamed + k) == Some(k)
    ensures PhxValueKey(attributeName) == Some(k) <==>
              (attributeName == AttrPhxValue && k == KeyPhxValue) || attributeName == AttrPhxValueNamed + k
  {
  }

  // ---------------------------------------------------------------------------
  // The builder
  // ---------------------------------------------------------------------------

  /** An attribute of a LiveView tag. */
  datatype CoreAttribute = CoreAttribute(name: string, value: string)

  /** The names `handleCommonAttributes` dispatches on. */
  predicate IsListedAttribute(name: string)
  {
    name in {AttrAspectRatio, AttrBackground, AttrClass, AttrClip, AttrHeight, AttrHorizontalPadding,
             AttrPadding, AttrPhxClick, AttrPhxValue, AttrSize, AttrTestTag, AttrVerticalPadding, AttrWidth}
  }

  /** The modifier element a listed attribute other than `phx-value` adds, if any. */
  function AttributeElement(attribute: CoreAttribute): Option<ModifierElement>
  {
    var name, v := attribute.name, attribute.value;
    if name == AttrAspectRatio then AspectRatioElement(v)
    else if name == AttrBackground then BackgroundElement(v)
    else if name == AttrClass then Some(StyleClass(v))
    else if name == AttrClip then Some(Clip(v))
    else if name == AttrHeight then HeightElement(v)
    else if name == AttrHorizontalPadding then PaddingElement(HorizontalEdges, v)
    else if name == AttrPadding then PaddingElement(AllEdges, v)
    else if name == AttrPhxClick then Some(Clickable(v))
    else if name == AttrSize then SizeElement(v)
    else if name == AttrTestTag then Some(TestTag(v))
    else if name == AttrVerticalPadding then PaddingElement(VerticalEdges, v)
    else if name == AttrWidth then WidthElement(v)
    else None
  }

  class ComposableBuilder {
    var commonProps: CommonComposableProperties<string>

    constructor ()
      ensures commonProps == CommonComposableProperties(false, false, [], map[])
    {
      commonProps := CommonComposableProperties(false, false, [], map[]);
    }

    method Size(size: string)
      modifies this
      ensures commonProps == old(commonProps).(modifier := Then(old(commonProps).modifier, SizeElement(size)))
    {
      var modifier := commonProps.modifier;
      if IsNotEmptyAndIsDigitsOnly(size) {
        modifier := modifier + [SizeDp(DigitsValue(size))];
      } else if size == SizeFill {
        modifier := modifier + [FillMaxSize];
      } else if size == SizeWrap {
        modifier := modifier + [WrapContentSize];
      }
      commonProps := commonProps.(modifier := modifier);
    }

    method Padding(edges: Edges, padding: string)
      modifies this
      ensures commonProps == old(commonProps).(modifier := Then(old(commonProps).modifier, PaddingElement(edges, padding)))
    {
      if IsNotEmptyAndIsDigitsOnly(padding) {
        commonProps := commonProps.(modifier := commonProps.modifier + [ModifierElement.Padding(edges, DigitsValue(padding))]);
      }
    }

    method Height(height: string)
      modifies this
      ensures commonProps == old(commonProps).(modifier := Then(old(commonProps).modifier, HeightElement(height)))
    {
      var modifier := commonProps.modifier;
      if IsNotEmptyAndIsDigitsOnly(height) {
        modifier := modifier + [HeightDp(DigitsValue(height))];
      } else if height == SizeFill {
        modifier := modifier + [FillMaxHeight];
      } else if height == SizeWrap {
        modifier := modifier + [WrapContentHeight];
      } else if height == SizeIntrinsicMin {
        modifier := modifier + [HeightIntrinsic(Min)];
      } else if height == SizeIntrinsicMax {
        modifier := modifier + [HeightIntrinsic(Max)];
      } else if |height| > 0 && height[|height| - 1] == '%' {
        var fraction := HandleFraction(height);
        if fraction.Some? {
          modifier := modifier + [FillMaxHeightFraction(fraction.value)];
        }
      }
      commonProps := commonProps.(modifier := modifier);
    }

    method Width(width: string)
      modifies this
      ensures commonProps == old(commonProps).(modifier := Then(old(commonProps).modifier, WidthElement(width)))
    {
      var modifier := commonProps.modifier;
      if IsNotEmptyAndIsDigitsOnly(width) {
        modifier := modifier + [WidthDp(DigitsValue(width))];
      } else if width == SizeFill {
        modifier := modifier + [FillMaxWidth];
      } else if width == SizeWrap {
        modifier := modifier + [WrapContentWidth];
      } else if width == SizeIntrinsicMin {
        modifier := modifier + [WidthIntrinsic(Min)];
      } else if width == SizeIntrinsicMax {
        modifier := modifier + [WidthIntrinsic(Max)];
      } else if |width| > 0 && width[|width| - 1] == '%' {
        var fraction := HandleFraction(width);
        if fraction.Some? {
          modifier := modifier + [FillMaxWidthFraction(fraction.value)];
        }
      }
      commonProps := commonProps.(modifier := modifier);
    }

    method Clip(shape: string)
      modifies this
      ensures commonProps == old(commonProps).(modifier := old(commonProps).modifier + [ModifierElement.Clip(shape)])
    {
      commonProps := commonProps.(modifier := commonProps.modifier + [ModifierElement.Clip(shape)]);
    }

    /** The click handler records its event; it reads `phxValue` only when clicked. */
    method Clickable(event: string)
      modifies this
      ensures commonProps == old(commonProps).(modifier := old(commonProps).modifier + [ModifierElement.Clickable(event)])
    {
      commonProps := commonProps.(modifier := commonProps.modifier + [ModifierElement.Clickable(event)]);
    }

    /** The `value` setter: binds `value` for `phx-value`, the suffix for `phx-value-<k>`, nothing otherwise. */
    method Value(attributeName: string, value: string)
      modifies this
      ensures PhxValueKey(attributeName).Some? ==>
                commonProps == old(commonProps).(value := old(commonProps).value[PhxValueKey(attributeName).value := value])
      ensures PhxValueKey(attributeName).None? ==> commonProps == old(commonProps)
    {
      if attributeName == AttrPhxValue {
        var newMap := commonProps.value[KeyPhxValue := value];
        commonProps := commonProps.(value := newMap);
      } else if |AttrPhxValueNamed| <= |attributeName| && attributeName[..|AttrPhxValueNamed|] == AttrPhxValueNamed {
        var phxValueKey := attributeName[|AttrPhxValueNamed|..];
        var newMap := commonProps.value[phxValueKey := value];
        commonProps := commonProps.(value := newMap);
      }
    }

    /** Both flags are overwritten: an unknown direction clears them. */
    method Scrolling(scrolling: string)
      modifies this
      ensures commonProps.hasHorizontalScrolling <==> scrolling == ScrollHorizontal || scrolling == ScrollBoth
      ensures commonProps.hasVerticalScrolling <==> scrolling == ScrollVertical || scrolling == ScrollBoth
      ensures commonProps.modifier == old(commonProps).modifier && commonProps.value == old(commonProps).value
    {
      commonProps := commonProps.(
        hasHorizontalScrolling := scrolling == ScrollHorizontal || scrolling == ScrollBoth,
        hasVerticalScrolling := scrolling == ScrollVertical || scrolling == ScrollBoth);
    }

    method Background(background: string)
      modifies this
      ensures commonProps == old(commonProps).(modifier := Then(old(commonProps).modifier, BackgroundElement(background)))
    {
      if |background| > 0 {
        commonProps := commonProps.(modifier := commonProps.modifier + [ModifierElement.Background(background)]);
      }
    }

    method AspectRatio(aspectRatio: string)
      modifies this
      ensures commonProps == old(commonProps).(modifier := Then(old(commonProps).modifier, AspectRatioElement(aspectRatio)))
    {
      if |aspectRatio| > 0 {
        commonProps := commonProps.(modifier := commonProps.modifier + [ModifierElement.AspectRatio(aspectRatio)]);
      }
    }

    method TestTag(testTag: string)
      modifies this
      ensures commonProps == old(commonProps).(modifier := old(commonProps).modifier + [ModifierElement.TestTag(testTag)])
    {
      commonProps := commonProps.(modifier := commonProps.modifier + [ModifierElement.TestTag(testTag)]);
    }

    /** The `class` attribute: the style the class names, resolved elsewhere. */
    method StyleModifier(style: string)
      modifies this
      ensures commonProps == old(commonProps).(modifier := old(commonProps).modifier + [StyleClass(style)])
    {
      commonProps := commonProps.(modifier := commonProps.modifier + [StyleClass(style)]);
    }

    /**
     * Dispatches an attribute by name: a listed name runs its handler, an
     * unlisted `phx-value-<k>` name binds `<k>`, any other name changes nothing.
     * Returns this same builder.
     */
    method HandleCommonAttributes(attribute: CoreAttribute) returns (b: ComposableBuilder)
      modifies this
      ensures b == this
      ensures IsListedAttribute(attribute.name) && attribute.name != AttrPhxValue ==>
                commonProps == old(commonProps).(modifier := Then(old(commonProps).modifier, AttributeElement(attribute)))
      ensures attribute.name == AttrPhxValue ==>
                commonProps == old(commonProps).(value := old(commonProps).value[KeyPhxValue := attribute.value])
      ensures !IsListedAttribute(attribute.name) && StartsWith(attribute.name, AttrPhxValueNamed) ==>
                commonProps == old(commonProps).(value :=
                  old(commonProps).value[attribute.name[|AttrPhxValueNamed|..] := attribute.value])
      ensures !IsListedAttribute(attribute.name) && !StartsWith(attribute.name, AttrPhxValueNamed) ==>
                commonProps == old(commonProps)
    {
      var name, v := attribute.name, attribute.value;
      if name == AttrAspectRatio { AspectRatio(v); }
      else if name == AttrBackground { Background(v); }
      else if name == AttrClass { StyleModifier(v); }
      else if name == AttrClip { Clip(v); }
      else if name == AttrHeight { Height(v); }
      else if name == AttrHorizontalPadding { Padding(HorizontalEdges, v); }
      else if name == AttrPadding { Padding(AllEdges, v); }
      else if name == AttrPhxClick { Clickable(v); }
      else if name == AttrPhxValue { Value(AttrPhxValue, v); }
      else if name == AttrSize { Size(v); }
      else if name == AttrTestTag { TestTag(v); }
      else if name == AttrVerticalPadding { Padding(VerticalEdges, v); }
      else if name == AttrWidth { Width(v); }
      else if StartsWith(name, AttrPhxValueNamed) { Value(name, v); }
      b := this;
    }
  }
}
