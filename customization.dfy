/** The product personalisation panel: the `option_<index>` key scheme, the
    handlers that write one key of the customisation data with object-spread
    semantics, the upload size gate, and the rule for rendering nothing.
    Also the "required option filled" test shared by the product page and the
    enhanced cart. */
module ProductCustomization {
  import opened Common
  import opened Types

  // ---------------------------------------------------------------------
  // Option keys

  function DigitChar(d: nat): (c: char)
    requires d < 10
    ensures IsDigit(c)
  {
    ('0' as int + d) as char
  }

  /** `String(n)` for a natural number: its decimal digits, most significant first. */
  function DecimalString(n: nat): (r: string)
    ensures |r| >= 1
    ensures n < 10 <==> |r| == 1
    ensures forall i :: 0 <= i < |r| ==> IsDigit(r[i])
  {
    if n < 10 then [DigitChar(n)] else DecimalString(n / 10) + [DigitChar(n % 10)]
  }

  /** Different numbers are written differently. */
  lemma {:induction false} DecimalStringInjective(m: nat, n: nat)
    requires DecimalString(m) == DecimalString(n)
    ensures m == n
  {
    var a, b := DecimalString(m), DecimalString(n);
    if m < 10 && n < 10 {
      assert a[0] == b[0];
    } else if 10 <= m && 10 <= n {
      assert a == DecimalString(m / 10) + [DigitChar(m % 10)];
      assert b == DecimalString(n / 10) + [DigitChar(n % 10)];
      assert a[|a| - 1] == b[|b| - 1];
      assert a[..|a| - 1] == DecimalString(m / 10);
      assert b[..|b| - 1] == DecimalString(n / 10);
      DecimalStringInjective(m / 10, n / 10);
    }
  }

  /** The key under which the option at position `index` is stored. */
  function OptionKey(index: nat): (k: string)
    ensures |k| > 7 && k[..7] == "option_"
  {
    "option_" + DecimalString(index)
  }

  /** Distinct options never share a key. */
  lemma OptionKeyInjective(i: nat, j: nat)
    requires OptionKey(i) == OptionKey(j)
    ensures i == j
  {
    assert OptionKey(i)[7..] == DecimalString(i);
    assert OptionKey(j)[7..] == DecimalString(j);
    DecimalStringInjective(i, j);
  }

  // ---------------------------------------------------------------------
  // Customisation data as a JavaScript object

  /** No key occurs twice, as in any JavaScript object. */
  predicate UniqueKeys(c: Customization)
  {
    forall i, j :: 0 <= i < j < |c| ==> c[i].0 != c[j].0
  }

  /** `data[key]`: the value stored under `key`, if any. */
  function Get(c: Customization, key: string): (r: Option<CustomValue>)
    ensures r.None? <==> forall i :: 0 <= i < |c| ==> c[i].0 != key
    ensures r.Some? ==> exists i :: 0 <= i < |c| && c[i] == (key, r.value)
  {
    if c == [] then None
    else if c[0].0 == key then Some(c[0].1)
    else Get(c[1..], key)
  }

  /** `{...data, [key]: value}`: an existing key keeps its position and takes
      the new value; a new key is added last. */
  function Put(c: Customization, key: string, v: CustomValue): (r: Customization)
    ensures Get(r, key) == Some(v)
    ensures forall k :: k != key ==> Get(r, k) == Get(c, k)
  {
    if c == [] then [(key, v)]
    else if c[0].0 == key then [(key, v)] + c[1..]
    else [c[0]] + Put(c[1..], key, v)
  }

  /** Writing an existing key keeps the size and every other entry in place;
      writing a new key appends one entry. */
  lemma {:induction false} PutShape(c: Customization, key: string, v: CustomValue)
    ensures Get(c, key).None? ==> Put(c, key, v) == c + [(key, v)]
    ensures Get(c, key).Some? ==> |Put(c, key, v)| == |c|
    ensures Get(c, key).Some? ==> forall i :: 0 <= i < |c| && c[i].0 != key ==> Put(c, key, v)[i] == c[i]
  {
    if c != [] && c[0].0 != key {
      PutShape(c[1..], key, v);
    }
  }

  /** Every key after a write is the written key or a key that was there. */
  lemma {:induction false} PutKeysFrom(c: Customization, key: string, v: CustomValue, j: nat)
    requires j < |Put(c, key, v)|
    ensures Put(c, key, v)[j].0 == key || exists i :: 0 <= i < |c| && c[i].0 == Put(c, key, v)[j].0
  {
    if c != [] && c[0].0 != key && j > 0 {
      PutKeysFrom(c[1..], key, v, j - 1);
      var k := Put(c, key, v)[j].0;
      if k != key {
        var i :| 0 <= i < |c[1..]| && c[1..][i].0 == k;
        assert c[i + 1].0 == k;
      }
    } else if c != [] && c[0].0 == key && j > 0 {
      assert Put(c, key, v)[j] == c[j];
    }
  }

  /** An entry in front of data with unique keys keeps the keys unique when
      its own key is new. */
  lemma ConsUnique(x: (string, CustomValue), rest: Customization)
    requires UniqueKeys(rest)
    requires forall j :: 0 <= j < |rest| ==> rest[j].0 != x.0
    ensures UniqueKeys([x] + rest)
  {
    var r := [x] + rest;
    forall i, j | 0 <= i < j < |r|
      ensures r[i].0 != r[j].0
    {
      assert r[j] == rest[j - 1];
      if i > 0 {
        assert r[i] == rest[i - 1];
      }
    }
  }

  /** Writing a key never creates a duplicate key. */
  lemma {:induction false} PutKeepsKeysUnique(c: Customization, key: string, v: CustomValue)
    requires UniqueKeys(c)
    ensures UniqueKeys(Put(c, key, v))
  {
    if c == [] {
    } else if c[0].0 == key {
      assert forall j :: 0 <= j < |c[1..]| ==> c[1..][j].0 != key by {
        forall j | 0 <= j < |c[1..]|
          ensures c[1..][j].0 != key
        {
          assert c[1..][j] == c[j + 1];
        }
      }
      ConsUnique((key, v), c[1..]);
    } else {
      var rest := Put(c[1..], key, v);
      PutKeepsKeysUnique(c[1..], key, v);
      forall j | 0 <= j < |rest|
        ensures rest[j].0 != c[0].0
      {
        PutKeysFrom(c[1..], key, v, j);
        if i :| 0 <= i < |c[1..]| && c[1..][i].0 == rest[j].0 {
          assert c[i + 1].0 == rest[j].0;
        }
      }
      ConsUnique(c[0], rest);
    }
  }

  /** JavaScript truthiness of a stored value: a missing key and the empty
      string are falsy; any other string and any upload record are truthy. */
  predicate Truthy(v: Option<CustomValue>)
  {
    match v
    case None => false
    case Some(Text(s)) => s != ""
    case Some(Upload(_, _, _)) => true
  }

  /** Every required option has a truthy value under its key. */
  predicate RequiredFilled(options: seq<CustomizationOption>, data: Customization)
  {
    forall i :: 0 <= i < |options| && options[i].required ==> Truthy(Get(data, OptionKey(i)))
  }

  // ---------------------------------------------------------------------
  // Handlers

  /** `handleTextChange` and `handleColorChange` (also used by the dropdown):
      store the typed text, chosen entry or colour under the option key. */
  function SetText(data: Customization, key: string, value: string): (r: Customization)
    ensures Get(r, key) == Some(Text(value))
    ensures forall k :: k != key ==> Get(r, k) == Get(data, k)
  {
    Put(data, key, Text(value))
  }

  /** Bytes in a megabyte as the size gate counts them. */
  const BytesPerMegabyte: nat := 1024 * 1024

  /** The size gate: a truthy `maxFileSize` (in megabytes) rejects a larger
      file; an absent or zero limit accepts every file. */
  predicate TooLarge(option: CustomizationOption, file: FileRef)
  {
    match option.maxFileSize
    case None => false
    case Some(mb) => mb != 0 && file.size > mb * BytesPerMegabyte
  }

  /** The file input's change handler followed by the reader callback: a file
      over the limit is rejected and nothing is emitted; an accepted file is
      stored as {file, preview, name} under the option key. */
  function ChooseFile(data: Customization, index: nat, option: CustomizationOption, file: FileRef, preview: string)
    : (r: Option<Customization>)
    ensures r.None? <==> TooLarge(option, file)
    ensures r.Some? ==> Get(r.value, OptionKey(index)) == Some(Upload(file, preview, file.name))
    ensures r.Some? ==> forall k :: k != OptionKey(index) ==> Get(r.value, k) == Get(data, k)
  {
    if TooLarge(option, file) then None
    else Some(Put(data, OptionKey(index), Upload(file, preview, file.name)))
  }

  /** A file of exactly the limit passes; one byte more does not. */
  lemma UploadLimitIsInclusive(option: CustomizationOption, name: string)
    requires option.maxFileSize.Some? && option.maxFileSize.value > 0
    ensures !TooLarge(option, FileRef(name, option.maxFileSize.value * BytesPerMegabyte))
    ensures TooLarge(option, FileRef(name, option.maxFileSize.value * BytesPerMegabyte + 1))
  {
  }

  /** The panel keeps the last accepted preview as its own state. */
  class CustomizationPanel {
    var previewImage: Option<string>

    constructor()
      ensures previewImage == None
    {
      previewImage := None;
    }

    /** Choosing a file: a rejected file changes nothing; an accepted one
        becomes the preview and the new data is emitted. */
    method OnFileChosen(data: Customization, index: nat, option: CustomizationOption, file: FileRef, preview: string)
      returns (emitted: Option<Customization>)
      modifies this
      ensures emitted == ChooseFile(data, index, option, file, preview)
      ensures emitted.None? ==> previewImage == old(previewImage)
      ensures emitted.Some? ==> previewImage == Some(preview)
    {
      if TooLarge(option, file) {
        return None;
      }
      previewImage := Some(preview);
      emitted := Some(Put(data, OptionKey(index), Upload(file, preview, file.name)));
    }
  }

  /** The panel renders only for a customisable product with at least one option. */
  predicate Renders(p: Product)
  {
    p.isCustomizable && p.customizationOptions.Some? && |p.customizationOptions.value| > 0
  }

  /** The option kinds the render switch has a case for; a checkbox option
      falls through to `default` and renders nothing. */
  predicate HasInput(o: CustomizationOption)
  {
    o.kind != Checkbox
  }

  /** What a rendering panel shows: an input for exactly the options whose
      kind the switch handles (every kind but the checkbox), keyed by the
      option's position, in option order. */
  function RenderedKeys(p: Product): (keys: seq<string>)
    ensures !Renders(p) ==> keys == []
    ensures Renders(p) ==> |keys| <= |p.customizationOptions.value|
    ensures Renders(p) ==> forall i :: 0 <= i < |p.customizationOptions.value| ==>
      (OptionKey(i) in keys <==> p.customizationOptions.value[i].kind != Checkbox)
  {
    if Renders(p) then
      InputKeysAllExactly(p.customizationOptions.value);
      InputKeys(p.customizationOptions.value, |p.customizationOptions.value|)
    else []
  }

  /** The keys of the inputs rendered for the first `n` options. */
  function InputKeys(options: seq<CustomizationOption>, n: nat): (keys: seq<string>)
    requires n <= |options|
    ensures |keys| <= n
  {
    if n == 0 then []
    else if HasInput(options[n - 1]) then InputKeys(options, n - 1) + [OptionKey(n - 1)]
    else InputKeys(options, n - 1)
  }

  /** Each input for the first `n` options belongs to one of them whose kind the switch handles. */
  lemma {:induction false} InputKeyPosition(options: seq<CustomizationOption>, n: nat, k: nat) returns (i: nat)
    requires n <= |options| && k < |InputKeys(options, n)|
    ensures i < n && InputKeys(options, n)[k] == OptionKey(i) && HasInput(options[i])
  {
    var prev := InputKeys(options, n - 1);
    if k < |prev| {
      i := InputKeyPosition(options, n - 1, k);
      assert InputKeys(options, n)[k] == prev[k];
    } else {
      i := n - 1;
    }
  }

  /** No input for the first `n` options uses the key of a later position. */
  lemma LaterKeyAbsent(options: seq<CustomizationOption>, n: nat, m: nat)
    requires n <= m && n <= |options|
    ensures OptionKey(m) !in InputKeys(options, n)
  {
    var keys := InputKeys(options, n);
    forall k | 0 <= k < |keys|
      ensures keys[k] != OptionKey(m)
    {
      var i := InputKeyPosition(options, n, k);
      if keys[k] == OptionKey(m) {
        OptionKeyInjective(i, m);
      }
    }
  }

  /** An option gets an input exactly when the switch handles its kind. */
  lemma {:induction false} InputKeysExactly(options: seq<CustomizationOption>, n: nat, i: nat)
    requires i < n <= |options|
    ensures OptionKey(i) in InputKeys(options, n) <==> HasInput(options[i])
  {
    var prev := InputKeys(options, n - 1);
    if i < n - 1 {
      InputKeysExactly(options, n - 1, i);
      if OptionKey(i) == OptionKey(n - 1) {
        OptionKeyInjective(i, n - 1);
      }
    } else {
      LaterKeyAbsent(options, n - 1, n - 1);
    }
  }

  /** The inputs for the first `n` options have pairwise distinct keys. */
  lemma {:induction false} InputKeysDistinct(options: seq<CustomizationOption>, n: nat, a: nat, b: nat)
    requires n <= |options|
    requires a < b < |InputKeys(options, n)|
    ensures InputKeys(options, n)[a] != InputKeys(options, n)[b]
  {
    var prev := InputKeys(options, n - 1);
    if b < |prev| {
      InputKeysDistinct(options, n - 1, a, b);
    } else {
      assert InputKeys(options, n)[a] == prev[a];
      LaterKeyAbsent(options, n - 1, n - 1);
    }
  }

  /** Every option gets an input exactly when the switch handles its kind. */
  lemma InputKeysAllExactly(options: seq<CustomizationOption>)
    ensures forall i :: 0 <= i < |options| ==> (OptionKey(i) in InputKeys(options, |options|) <==> HasInput(options[i]))
  {
    forall i | 0 <= i < |options|
      ensures OptionKey(i) in InputKeys(options, |options|) <==> HasInput(options[i])
    {
      InputKeysExactly(options, |options|, i);
    }
  }

  /** The rendered keys are pairwise distinct. */
  lemma RenderedKeysDistinct(p: Product, i: nat, j: nat)
    requires i < j < |RenderedKeys(p)|
    ensures RenderedKeys(p)[i] != RenderedKeys(p)[j]
  {
    InputKeysDistinct(p.customizationOptions.value, |p.customizationOptions.value|, i, j);
  }

  /** Customisation data written only through the panel's own inputs. */
  predicate OnlyRenderedKeys(p: Product, data: Customization)
  {
    forall j :: 0 <= j < |data| ==> data[j].0 in RenderedKeys(p)
  }

  /** Typing into a rendered input keeps the data within the rendered keys. */
  lemma SetTextKeepsRenderedKeys(p: Product, data: Customization, key: string, value: string)
    requires OnlyRenderedKeys(p, data) && key in RenderedKeys(p)
    ensures OnlyRenderedKeys(p, SetText(data, key, value))
  {
    var r := SetText(data, key, value);
    forall j | 0 <= j < |r|
      ensures r[j].0 in RenderedKeys(p)
    {
      PutKeysFrom(data, key, Text(value), j);
    }
  }

  /** Uploading through a rendered input keeps the data within the rendered keys. */
  lemma ChooseFileKeepsRenderedKeys(p: Product, data: Customization, index: nat, option: CustomizationOption,
                                    file: FileRef, preview: string)
    requires OnlyRenderedKeys(p, data) && OptionKey(index) in RenderedKeys(p)
    requires ChooseFile(data, index, option, file, preview).Some?
    ensures OnlyRenderedKeys(p, ChooseFile(data, index, option, file, preview).value)
  {
    var r := ChooseFile(data, index, option, file, preview).value;
    forall j | 0 <= j < |r|
      ensures r[j].0 in RenderedKeys(p)
    {
      PutKeysFrom(data, OptionKey(index), Upload(file, preview, file.name), j);
    }
  }

  /** A required checkbox option has no input, so data filled through the
      panel never satisfies it and adding to the cart is always blocked. */
  lemma RequiredCheckboxNeverFilled(p: Product, data: Customization, i: nat)
    requires p.customizationOptions.Some? && i < |p.customizationOptions.value|
    requires p.customizationOptions.value[i].kind == Checkbox && p.customizationOptions.value[i].required
    requires OnlyRenderedKeys(p, data)
    ensures !RequiredFilled(p.customizationOptions.value, data)
  {
  }
}
