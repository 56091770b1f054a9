/**
 * The QR scan-payload classifiers of the transfer screen and of the unlocked
 * footer, as total functions from the scanned data to an outcome, and the
 * reaction each outcome causes (context writes, modal toggle, dialog, route).
 */
module ScanPayload {
  import opened Wrappers
  import opened JsStrings
  import opened OrderedMaps
  import opened AppContext

  /**
   * What `JSON.parse` returned, as far as the footer looks at it: a falsy value
   * (`null`, `false`, `0`, `""`), some other truthy value without an `action`
   * string (`true`, a non-zero number, a non-empty string, an array), or an
   * object whose `action`, `id` and `token` fields are kept when they are strings.
   */
  datatype Json =
    | Falsy
    | OtherTruthy
    | Object(action: Option<string>, id: Option<string>, token: Option<string>)

  datatype ScanOutcome =
    | Ignored                                        // nothing happens
    | Login(id: Option<string>, token: Option<string>) // handed to the login handler
    | AddressOnly(address: string)                   // a `0x` address, saved verbatim
    | TokenDescriptor(tokenName: string, descriptor: Dict) // a `key:value,...` list
    | Invalid                                        // the fold threw

  const ADDRESS_KEY := "address"
  const INVALID_SCAN := "Invalid wallet address!"

  /** `if (data)`: `null` and the empty string are falsy. */
  predicate IsFalsy(data: Option<string>)
  {
    data == None || data == Some("")
  }

  /** `data.substring(0, 2) === '0x'`. */
  predicate HasHexPrefix(s: string)
  {
    |s| >= 2 && s[..2] == "0x"
  }

  /** The object `{address: data}` saved for a scanned address. */
  function AddressObject(address: string): (obj: Dict)
    ensures obj.Valid() && obj.keys == [ADDRESS_KEY] && obj.entries[ADDRESS_KEY] == address
  {
    OrderedMap([ADDRESS_KEY], map[ADDRESS_KEY := address])
  }

  /**
   * One comma-separated segment: `tup = property.split(':')`, the key is `tup[0]`
   * (trimmed in the footer's copy) and the value `tup[1].trim()`, which throws
   * (here: `None`) when the segment has no colon.
   */
  function ParseProperty(property: string, trimKey: bool): (r: Option<(string, string)>)
    ensures r.None? <==> ':' !in property
  {
    var tup := Split(property, ':');
    if |tup| < 2 then None
    else Some((if trimKey then Trim(tup[0]) else tup[0], Trim(tup[1])))
  }

  /** The `forEach` over the segments: every segment parsed, or `None` as soon as one throws. */
  function ParseProperties(properties: seq<string>, trimKey: bool): (r: Option<seq<(string, string)>>)
    ensures r.Some? ==> |r.value| == |properties|
  {
    if properties == [] then Some([])
    else
      var init := ParseProperties(properties[..|properties| - 1], trimKey);
      var last := ParseProperty(properties[|properties| - 1], trimKey);
      if init.Some? && last.Some? then Some(init.value + [last.value]) else None
  }

  /**
   * The forEach loop of `handlScanSuccess`: it fills `obj` segment by segment and
   * stops at the first segment without a colon.
   */
  method CollectProperties(properties: seq<string>, trimKey: bool) returns (obj: Option<Dict>)
    ensures obj.Some? <==> ParseProperties(properties, trimKey).Some?
    ensures obj.Some? ==> obj.value == FromEntries(ParseProperties(properties, trimKey).value)
  {
    var o: Dict := Empty();
    ghost var pairs: seq<(string, string)> := [];
    var i := 0;
    while i < |properties|
      invariant 0 <= i <= |properties|
      invariant ParseProperties(properties[..i], trimKey) == Some(pairs)
      invariant o == FromEntries(pairs)
    {
      var tup := Split(properties[i], ':');
      if |tup| < 2 {
        // `tup[1]` is undefined and `.trim()` throws
        ParsePropertiesFails(properties, trimKey);
        return None;
      }
      var keyName := if trimKey then Trim(tup[0]) else tup[0];
      var value := Trim(tup[1]);
      assert ParseProperty(properties[i], trimKey) == Some((keyName, value));
      o := o.Set(keyName, value);
      assert properties[..i + 1][..i] == properties[..i];
      pairs := pairs + [(keyName, value)];
      i := i + 1;
    }
    assert properties[..i] == properties;
    return Some(o);
  }

  /** The fold throws exactly when some segment has no colon. */
  lemma {:induction false} ParsePropertiesFails(properties: seq<string>, trimKey: bool)
    ensures ParseProperties(properties, trimKey).None?
        <==> exists i :: 0 <= i < |properties| && ':' !in properties[i]
  {
    if properties != [] {
      var n := |properties| - 1;
      var init := properties[..n];
      ParsePropertiesFails(init, trimKey);
      if ParseProperties(init, trimKey).None? {
        var i :| 0 <= i < |init| && ':' !in init[i];
        assert properties[i] == init[i];
      } else if ':' !in properties[n] {
        assert ParseProperty(properties[n], trimKey).None?;
      } else {
        forall i | 0 <= i < |properties|
          ensures ':' in properties[i]
        {
          if i < n {
            assert init[i] == properties[i];
          }
        }
      }
    }
  }

  /** When the fold succeeds, its `i`th pair is the parse of the `i`th segment. */
  lemma {:induction false} ParsePropertiesAt(properties: seq<string>, trimKey: bool, i: int)
    requires ParseProperties(properties, trimKey).Some?
    requires 0 <= i < |properties|
    ensures ParseProperty(properties[i], trimKey).Some?
    ensures ParseProperties(properties, trimKey).value[i] == ParseProperty(properties[i], trimKey).value
  {
    var n := |properties| - 1;
    if i < n {
      ParsePropertiesAt(properties[..n], trimKey, i);
    }
  }

  /**
   * A segment with a colon parses to the text before its first colon (trimmed in
   * the footer's copy) and the trimmed text between its first and second colon;
   * anything after a second colon is dropped. A segment without a colon throws.
   */
  lemma ParsePropertyShape(property: string, trimKey: bool)
    ensures ':' !in property ==> ParseProperty(property, trimKey).None?
    ensures ':' in property ==>
      var i := IndexOf(property, ':');
      var rest := property[i + 1..];
      var key := property[..i];
      ParseProperty(property, trimKey)
        == Some((if trimKey then Trim(key) else key, Trim(rest[..IndexOf(rest, ':')])))
  {
    if ':' in property {
      var i := IndexOf(property, ':');
      var rest := property[i + 1..];
      var tup := Split(property, ':');
      SplitFirst(property, ':');
      SplitFirst(rest, ':');
      assert |tup| >= 2;
      assert ParseProperty(property, trimKey) == Some((if trimKey then Trim(tup[0]) else tup[0], Trim(tup[1])));
      assert tup[0] == property[..i];
      assert tup[1] == Split(rest, ':')[0] == rest[..IndexOf(rest, ':')];
    }
  }

  /**
   * After a successful fold: the first-inserted key is the token name, and
   * `obj.address = obj[tokenName]` is added (or overwritten in place).
   */
  function Descriptor(pairs: seq<(string, string)>): (r: ScanOutcome)
    requires |pairs| > 0
    ensures r.TokenDescriptor?
    ensures r.tokenName == pairs[0].0
    ensures r.descriptor.Valid()
    ensures |r.descriptor.keys| > 0 && r.descriptor.keys[0] == r.tokenName
    ensures ADDRESS_KEY in r.descriptor.entries && r.tokenName in r.descriptor.entries
    ensures r.descriptor.entries[ADDRESS_KEY] == r.descriptor.entries[r.tokenName]
  {
    var obj := FromEntries(pairs);
    var tokenName := obj.keys[0];
    TokenDescriptor(tokenName, obj.Set(ADDRESS_KEY, obj.entries[tokenName]))
  }

  /** The part both copies share once the input is known not to be JSON (footer) or at all (transfer). */
  function ClassifyText(data: string, trimKey: bool): ScanOutcome
  {
    if HasHexPrefix(data) then AddressOnly(data)
    else
      match ParseProperties(Split(data, ','), trimKey)
      case None => Invalid
      case Some(pairs) => Descriptor(pairs)
  }

  /** `handlScanSuccess` of the transfer screen: keys are not trimmed, and there is no JSON step. */
  function ClassifyTransferScan(data: Option<string>): (r: ScanOutcome)
    ensures !r.Login?
    ensures r.Ignored? <==> IsFalsy(data)
  {
    if IsFalsy(data) then Ignored else ClassifyText(data.value, false)
  }

  /** `isJsonString`: `JSON.parse` does not throw. */
  predicate IsJsonString(str: string, parse: string -> Option<Json>)
  {
    parse(str).Some?
  }

  /**
   * `handlScanSuccess` of the unlocked footer: JSON input either logs in or is
   * ignored; other input takes the transfer screen's path with trimmed keys.
   */
  function ClassifyFooterScan(data: Option<string>, parse: string -> Option<Json>): (r: ScanOutcome)
    ensures r.Login? ==> !IsFalsy(data) && IsJsonString(data.value, parse)
    ensures !IsFalsy(data) && IsJsonString(data.value, parse) ==> r.Login? || r.Ignored?
  {
    if IsFalsy(data) then Ignored
    else if IsJsonString(data.value, parse) then
      var loginPayload := parse(data.value).value;
      if loginPayload.Object? && loginPayload.action == Some("login") then
        Login(loginPayload.id, loginPayload.token)
      else Ignored
    else ClassifyText(data.value, true)
  }

  /** The key of a segment: its text before the first colon. */
  function SegmentKey(segment: string): string
  {
    segment[..IndexOf(segment, ':')]
  }

  /**
   * Non-empty scanned text that does not start with `0x`: it is invalid exactly
   * when some comma-separated segment has no colon; otherwise it is a token
   * descriptor whose token name is the key of the first segment.
   */
  lemma TransferScanKeyValue(data: string)
    requires data != "" && !HasHexPrefix(data)
    ensures var segments := Split(data, ',');
      && (ClassifyTransferScan(Some(data)) == Invalid
          <==> exists i :: 0 <= i < |segments| && ':' !in segments[i])
      && (ClassifyTransferScan(Some(data)) != Invalid ==>
            ClassifyTransferScan(Some(data)).TokenDescriptor?
            && ClassifyTransferScan(Some(data)).tokenName == SegmentKey(segments[0]))
  {
    var segments := Split(data, ',');
    ParsePropertiesFails(segments, false);
    assert ClassifyTransferScan(Some(data)) == ClassifyText(data, false);
    if ParseProperties(segments, false).Some? {
      ParsePropertiesAt(segments, false, 0);
      ParsePropertyShape(segments[0], false);
    }
  }

  /** The footer's version: the same split, with the token name being the trimmed key of the first segment. */
  lemma FooterScanKeyValue(data: string, parse: string -> Option<Json>)
    requires data != "" && !IsJsonString(data, parse) && !HasHexPrefix(data)
    ensures var segments := Split(data, ',');
      && (ClassifyFooterScan(Some(data), parse) == Invalid
          <==> exists i :: 0 <= i < |segments| && ':' !in segments[i])
      && (ClassifyFooterScan(Some(data), parse) != Invalid ==>
            ClassifyFooterScan(Some(data), parse).TokenDescriptor?
            && ClassifyFooterScan(Some(data), parse).tokenName == Trim(SegmentKey(segments[0])))
  {
    var segments := Split(data, ',');
    ParsePropertiesFails(segments, true);
    assert ClassifyFooterScan(Some(data), parse) == ClassifyText(data, true);
    if ParseProperties(segments, true).Some? {
      ParsePropertiesAt(segments, true, 0);
      ParsePropertyShape(segments[0], true);
    }
  }

  /**
   * The saved descriptor of a successful fold: a repeated key keeps the value of
   * its last segment and the position of its first, and `address` is appended
   * after the scanned keys unless a segment already named it, in which case it
   * keeps its place but now holds the token name's value.
   */
  lemma {:induction false} DescriptorEntries(pairs: seq<(string, string)>)
    requires |pairs| > 0
    ensures var d := Descriptor(pairs).descriptor;
      && d.keys == FirstOccurrences(KeysOf(pairs))
                   + (if ADDRESS_KEY in KeysOf(pairs) then [] else [ADDRESS_KEY])
      && (forall i :: LastOfKey(pairs, i) && pairs[i].0 != ADDRESS_KEY ==> d.entries[pairs[i].0] == pairs[i].1)
      && (forall i :: LastOfKey(pairs, i) && pairs[i].0 == pairs[0].0 ==> d.entries[ADDRESS_KEY] == pairs[i].1)
  {
    var obj := FromEntries(pairs);
    FromEntriesKeyOrder(pairs);
    forall i | LastOfKey(pairs, i)
      ensures obj.entries[pairs[i].0] == pairs[i].1
    {
      FromEntriesLastWins(pairs, i);
    }
  }

  /** The footer's parse of a segment differs from the transfer screen's only in trimming the key. */
  lemma ParsePropertyTrimsKey(property: string)
    ensures ParseProperty(property, false).Some? ==> ParseProperty(property, false).value.0 == SegmentKey(property)
    ensures ParseProperty(property, true)
      == if ParseProperty(property, false).None? then None
         else Some((Trim(ParseProperty(property, false).value.0), ParseProperty(property, false).value.1))
  {
    SplitFirst(property, ':');
  }

  /** A segment whose key has no surrounding whitespace. */
  predicate KeyIsTrimmed(segment: string)
  {
    Trim(SegmentKey(segment)) == SegmentKey(segment)
  }

  /** Segments whose keys carry no surrounding whitespace fold the same way in both copies. */
  lemma {:induction false} FoldsAgree(segments: seq<string>)
    requires forall i :: 0 <= i < |segments| ==> KeyIsTrimmed(segments[i])
    ensures ParseProperties(segments, true) == ParseProperties(segments, false)
  {
    if segments != [] {
      var n := |segments| - 1;
      var init := segments[..n];
      assert forall i :: 0 <= i < |init| ==> init[i] == segments[i];
      FoldsAgree(init);
      var last := segments[n];
      assert KeyIsTrimmed(last);
      ParsePropertyTrimsKey(last);
      assert ParseProperty(last, true) == ParseProperty(last, false);
    }
  }

  /**
   * On text that is not JSON, the footer and the transfer screen classify alike
   * whenever no key has surrounding whitespace; they differ only in trimming keys.
   */
  lemma CopiesAgree(data: string, parse: string -> Option<Json>)
    requires !IsJsonString(data, parse)
    requires forall i :: 0 <= i < |Split(data, ',')| ==> KeyIsTrimmed(Split(data, ',')[i])
    ensures ClassifyFooterScan(Some(data), parse) == ClassifyTransferScan(Some(data))
  {
    if data != "" {
      assert ClassifyFooterScan(Some(data), parse) == ClassifyText(data, true);
      assert ClassifyTransferScan(Some(data)) == ClassifyText(data, false);
      FoldsAgree(Split(data, ','));
    }
  }

  /**
   * `key:value:extra` parses to `key` and `value`: whatever follows a second
   * colon is dropped (so `bad:pair:extra` gives `bad` and `pair`).
   */
  lemma ExtraColonDropped(key: string, value: string, extra: string, trimKey: bool)
    requires ':' !in key && ':' !in value
    requires value == [] || (!IsWhitespace(value[0]) && !IsWhitespace(value[|value| - 1]))
    ensures ParseProperty(key + [':'] + value + [':'] + extra, trimKey)
         == Some((if trimKey then Trim(key) else key, value))
  {
    var p := key + [':'] + value + [':'] + extra;
    assert p == key + [':'] + (value + [':'] + extra);
    SplitConcat(key, value + [':'] + extra, ':');
    SplitConcat(value, extra, ':');
    TrimUntouched(value);
  }

  /** The shared text path on one `key:value` pair: a descriptor built from that one pair. */
  lemma SinglePairText(key: string, value: string, trimKey: bool)
    requires ',' !in key && ':' !in key && ',' !in value && ':' !in value
    requires !HasHexPrefix(key + [':'] + value)
    ensures ClassifyText(key + [':'] + value, trimKey)
         == Descriptor([(if trimKey then Trim(key) else key, Trim(value))])
  {
    var data := key + [':'] + value;
    var k := if trimKey then Trim(key) else key;
    var v := Trim(value);
    assert Split(data, ',') == [data] by {
      assert ',' !in data;
      SplitWithoutSeparator(data, ',');
    }
    assert Split(data, ':') == [key, value] by {
      SplitConcat(key, value, ':');
      SplitWithoutSeparator(value, ':');
    }
    assert ParseProperty(data, trimKey) == Some((k, v));
    var one := [data];
    assert one[..|one| - 1] == [];
    assert one[|one| - 1] == data;
    assert ParseProperties(one[..|one| - 1], trimKey) == Some([]);
    assert ParseProperties(one, trimKey) == Some([] + [(k, v)]);
    assert [] + [(k, v)] == [(k, v)];
  }

  /** One pair other than `address`: the descriptor holds that key, then `address`, both with its value. */
  lemma SinglePairDescriptor(k: string, v: string)
    requires k != ADDRESS_KEY
    ensures Descriptor([(k, v)]) == TokenDescriptor(k, OrderedMap([k, ADDRESS_KEY], map[k := v, ADDRESS_KEY := v]))
  {
    assert [(k, v)][..0] == [];
    assert FromEntries([(k, v)]) == OrderedMap([k], map[k := v]);
  }

  /**
   * A single `key:value` pair (as in `ethereum: 0x1111`): the token name is the
   * key, untrimmed on the transfer screen and trimmed in the footer, and both that
   * key and the added `address` hold the trimmed value.
   */
  lemma SinglePairScan(key: string, value: string, parse: string -> Option<Json>)
    requires ',' !in key && ':' !in key && ',' !in value && ':' !in value
    requires Trim(key) != ADDRESS_KEY && key != ADDRESS_KEY
    requires !HasHexPrefix(key + [':'] + value) && !IsJsonString(key + [':'] + value, parse)
    ensures var v := Trim(value);
      && ClassifyTransferScan(Some(key + [':'] + value))
           == TokenDescriptor(key, OrderedMap([key, ADDRESS_KEY], map[key := v, ADDRESS_KEY := v]))
      && ClassifyFooterScan(Some(key + [':'] + value), parse)
           == TokenDescriptor(Trim(key), OrderedMap([Trim(key), ADDRESS_KEY], map[Trim(key) := v, ADDRESS_KEY := v]))
  {
    var data := key + [':'] + value;
    assert ClassifyTransferScan(Some(data)) == ClassifyText(data, false);
    assert ClassifyFooterScan(Some(data), parse) == ClassifyText(data, true);
    SinglePairText(key, value, false);
    SinglePairText(key, value, true);
    SinglePairDescriptor(key, Trim(value));
    SinglePairDescriptor(Trim(key), Trim(value));
  }

  /** What a screen does with an outcome; the login outcome is handled by the login handler instead. */
  datatype Reaction = Reaction(
    scannedAddress: Option<Dict>,   // `saveScannedAddress`, if called
    sendingTokenName: Option<string>, // `saveSendingTokenName`, if called
    togglesModal: bool,             // `handleScanModalToggle()`
    effects: seq<Effect>)

  function ReactionTo(outcome: ScanOutcome): Reaction
  {
    match outcome
    case Ignored => Reaction(None, None, false, [])
    case Login(_, _) => Reaction(None, None, false, [])
    case AddressOnly(address) => Reaction(Some(AddressObject(address)), None, true, [Navigate(SELECT_TOKEN_ROUTE)])
    case TokenDescriptor(name, obj) => Reaction(Some(obj), Some(name), true, [Navigate(TRANSFER_ROUTE)])
    case Invalid => Reaction(None, None, true, [Alert(ErrorIcon, INVALID_SCAN)])
  }
}
