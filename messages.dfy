/**
 * The three helpers of the conversations page that turn a stored message
 * payload into something an operator may see: the routing-record classifier
 * (`isRoutingMessage`), the content resolver (`cleanMessage`) and the speaker
 * resolver (`getRole`).
 */
module Messages {
  import opened Collections
  import opened JsText
  import opened Json

  // ---------------------------------------------------------------------------
  // isRoutingMessage
  // ---------------------------------------------------------------------------

  /** The fixed marker list of routing records, all lower case. */
  const Markers: seq<string> := [
    "\"route\"",
    "\"output\"",
    "\"reason\"",
    "routing to",
    "route to kit",
    "route to normal",
    "agente comum",
    "kit agent",
    "\"route\":\"kit\"",
    "\"route\":\"normal\"",
    "\"route\": \"kit\"",
    "\"route\": \"normal\"",
    "{\"output\":",
    "{ \"output\":",
    "\"output\": {",
    "\"output\":{"
  ]

  /** The text the classifier inspects: a string as it is, anything else as JSON. */
  function ContentText(p: Value): string {
    if p.Str? then p.s else Stringify(p)
  }

  /** Lexical rule: the lower-cased text contains one of the markers. */
  predicate HasMarker(lower: string) {
    exists k :: 0 <= k < |Markers| && Contains(lower, Markers[k])
  }

  /** Structural rule: an object with a truthy `route`, `output` or `reason`. */
  predicate StructuralRule(p: Value) {
    p.Obj? && (Truthy(Get(p, "route")) || Truthy(Get(p, "output")) || Truthy(Get(p, "reason")))
  }

  /** The nested check: a truthy `output` whose `route` or `reason` is truthy. */
  predicate NestedOutputRule(p: Value) {
    p.Obj? && Truthy(Get(p, "output"))
    && (Truthy(Get2(p, "output", "route")) || Truthy(Get2(p, "output", "reason")))
  }

  /** Heuristic rule: short brace-wrapped text mentioning `route` or `output`. */
  predicate ShortJsonRule(text: string, lower: string) {
    var t := Trim(text);
    StartsWith(t, "{") && EndsWith(t, "}") && Utf16Length(t) < 100
    && (Contains(lower, "route") || Contains(lower, "output"))
  }

  /** `isRoutingMessage(content)`, its tests in the order the page applies them. */
  predicate IsRouting(p: Value)
    ensures IsRouting(p) ==> Truthy(p)
  {
    Truthy(p)
    && var text := ContentText(p);
       var lower := ToLower(text);
       HasMarker(lower) || StructuralRule(p) || NestedOutputRule(p) || ShortJsonRule(text, lower)
  }

  /** The loop over the marker list, leaving at the first marker found. */
  method ScanMarkers(lower: string) returns (found: bool)
    ensures found == HasMarker(lower)
  {
    for k := 0 to |Markers|
      invariant forall j :: 0 <= j < k ==> !Contains(lower, Markers[j])
    {
      if Contains(lower, Markers[k]) {
        return true;
      }
    }
    return false;
  }

  /** `isRoutingMessage`, step by step with early returns. */
  method IsRoutingMessage(p: Value) returns (routing: bool)
    ensures routing == IsRouting(p)
  {
    if !Truthy(p) {
      return false;
    }
    var text := ContentText(p);
    var lower := ToLower(text);
    var found := ScanMarkers(lower);
    if found {
      return true;
    }
    assert !HasMarker(lower);
    if p.Obj? {
      if Truthy(Get(p, "route")) || Truthy(Get(p, "output")) || Truthy(Get(p, "reason")) {
        return true;
      }
      if Truthy(Get(p, "output")) && (Truthy(Get2(p, "output", "route")) || Truthy(Get2(p, "output", "reason"))) {
        return true;
      }
    }
    var trimmed := Trim(text);
    if StartsWith(trimmed, "{") && EndsWith(trimmed, "}") && Utf16Length(trimmed) < 100 {
      if Contains(lower, "route") || Contains(lower, "output") {
        assert ShortJsonRule(text, lower);
        return true;
      }
    }
    assert !StructuralRule(p) && !NestedOutputRule(p) && !ShortJsonRule(text, lower);
    return false;
  }

  /** The nested check adds nothing: whatever it flags the structural rule flags already. */
  lemma NestedOutputRuleRedundant(p: Value)
    ensures NestedOutputRule(p) ==> StructuralRule(p)
  {
  }

  /**
   * The classifier flags a payload exactly when it is non-empty and one of
   * three rules fires: a marker, a truthy routing key, or the short-JSON heuristic.
   */
  lemma IsRoutingThreeRules(p: Value)
    ensures IsRouting(p) <==>
      Truthy(p) && (HasMarker(ToLower(ContentText(p))) || StructuralRule(p)
                    || ShortJsonRule(ContentText(p), ToLower(ContentText(p))))
  {
    NestedOutputRuleRedundant(p);
  }

  /** A string payload is flagged only by its text: the key rules look at objects alone. */
  lemma StringFlaggedByTextOnly(s: string)
    ensures IsRouting(Str(s)) <==> s != "" && (HasMarker(ToLower(s)) || ShortJsonRule(s, ToLower(s)))
  {
  }

  /** Brace-wrapped text of 100 or more code units is flagged only by the other rules. */
  lemma LongTextOnlyByMarkerOrKey(p: Value)
    requires Utf16Length(Trim(ContentText(p))) >= 100
    ensures IsRouting(p) <==> Truthy(p) && (HasMarker(ToLower(ContentText(p))) || StructuralRule(p))
  {
    NestedOutputRuleRedundant(p);
    LongTextNotShort(ContentText(p), ToLower(ContentText(p)));
  }

  lemma LongTextNotShort(text: string, lower: string)
    requires Utf16Length(Trim(text)) >= 100
    ensures !ShortJsonRule(text, lower)
  {
  }

  /** A short object whose JSON text mentions `route` or `output` anywhere is flagged. */
  lemma ShortObjectMentioningRouteIsRouting(o: Value)
    requires o.Obj? && Utf16Length(Stringify(o)) < 100
    requires Contains(ToLower(Stringify(o)), "route") || Contains(ToLower(Stringify(o)), "output")
    ensures IsRouting(o)
  {
    StringifyObjectBraces(o);
    TrimOfTrimmed(Stringify(o));
  }

  /** A word of lower-case ASCII letters. */
  predicate LowerLetters(w: string) {
    forall j :: 0 <= j < |w| ==> 'a' <= w[j] <= 'z'
  }

  lemma RoutingWordsAreLetters(word: string)
    requires word in {"route", "output", "reason"}
    ensures LowerLetters(word)
  {
  }

  /** A key that lower-cases to a plain word is written in JSON between bare quotes. */
  lemma QuoteOfRoutingWord(key: string)
    requires ToLower(key) in {"route", "output", "reason"}
    ensures Quote(key) == "\"" + key + "\""
    ensures ToLower(Quote(key)) == "\"" + ToLower(key) + "\""
  {
    var word := ToLower(key);
    RoutingWordsAreLetters(word);
    forall j | 0 <= j < |key| ensures Plain(key[j]) {
      assert LowerChar(key[j]) == word[j];
    }
    QuotedLower(key);
  }

  /** Lower-casing leaves the surrounding quotes alone. */
  lemma QuotedLower(s: string)
    ensures ToLower("\"" + s + "\"") == "\"" + ToLower(s) + "\""
  {
    ToLowerAppend("\"" + s, "\"");
    ToLowerAppend("\"", s);
  }

  /**
   * An object with a member named `route`, `output` or `reason`, in any letter
   * case, is flagged by the marker rule whatever that member holds, even a
   * falsy value the structural rule would let pass.
   */
  lemma RoutingKeyIsRouting(o: Value, i: nat)
    requires o.Obj? && i < |o.members|
    requires ToLower(o.members[i].key) in {"route", "output", "reason"}
    ensures IsRouting(o)
  {
    var key := o.members[i].key;
    var word := ToLower(key);
    QuoteOfRoutingWord(key);
    StringifyHasKey(o, i);
    ContainsPart(Stringify(o), Quote(key) + ":", 0, |Quote(key)|);
    assert (Quote(key) + ":")[0..|Quote(key)|] == Quote(key);
    ToLowerContains(Stringify(o), Quote(key));
    assert Contains(ToLower(ContentText(o)), "\"" + word + "\"");
    QuotedRoutingWordFlags(o, word);
  }

  /** The quoted key forms `"route"`, `"output"` and `"reason"` are markers. */
  lemma QuotedRoutingWordFlags(p: Value, word: string)
    requires Truthy(p) && word in {"route", "output", "reason"}
    requires Contains(ToLower(ContentText(p)), "\"" + word + "\"")
    ensures IsRouting(p)
  {
    QuotedWordMarkers();
    if word == "route" {
      MarkerFlags(p, 0);
    } else if word == "output" {
      MarkerFlags(p, 1);
    } else {
      MarkerFlags(p, 2);
    }
  }

  /** The first three markers are the quoted key names. */
  lemma QuotedWordMarkers()
    ensures Markers[0] == "\"" + "route" + "\""
    ensures Markers[1] == "\"" + "output" + "\""
    ensures Markers[2] == "\"" + "reason" + "\""
  {
  }

  /** Any one marker in the lower-cased text flags the payload. */
  lemma MarkerFlags(p: Value, k: nat)
    requires Truthy(p) && k < |Markers| && Contains(ToLower(ContentText(p)), Markers[k])
    ensures IsRouting(p)
  {
  }

  // ---------------------------------------------------------------------------
  // cleanMessage
  // ---------------------------------------------------------------------------

  /** Removes one pair of surrounding double quotes, as `slice(1, -1)` does. */
  function Unquote(t: string): (r: string)
    ensures StartsWith(t, "\"") && EndsWith(t, "\"") && |t| >= 2 ==> t == "\"" + r + "\""
    ensures t == "\"" ==> r == ""
    ensures !(StartsWith(t, "\"") && EndsWith(t, "\"")) ==> r == t
  {
    if StartsWith(t, "\"") && EndsWith(t, "\"") then
      (if |t| >= 2 then t[1..|t| - 1] else "")
    else t
  }

  predicate Braced(t: string) {
    StartsWith(t, "{") && EndsWith(t, "}")
  }

  /** `content.content || content.message || content.text || ""` */
  function PickText(o: Value): (r: string)
    ensures r != "" <==> Truthy(Get(o, "content")) || Truthy(Get(o, "message")) || Truthy(Get(o, "text"))
    ensures r == "" || r == Coerce(Get(o, "content")) || r == Coerce(Get(o, "message")) || r == Coerce(Get(o, "text"))
  {
    var content := Get(o, "content");
    var message := Get(o, "message");
    var text := Get(o, "text");
    if Truthy(content) then Coerce(content)
    else if Truthy(message) then Coerce(message)
    else if Truthy(text) then Coerce(text)
    else ""
  }

  /**
   * `cleanMessage(content)`: the display text of a payload, `""` meaning
   * "suppress". A string is trimmed and unquoted; brace-wrapped text that
   * parses is resolved once more as the object it parses to.
   */
  function CleanMessage(p: Value, parse: Parser): (r: string)
    requires ParsesObjects(parse)
    ensures !Truthy(p) ==> r == ""
    ensures IsRouting(p) ==> r == ""
    decreases if p.Str? then 1 else 0
  {
    if !Truthy(p) then ""
    else if IsRouting(p) then ""
    else match p
      case Null => ""
      case Obj(_) =>
        if Truthy(Get(p, "route")) || Truthy(Get2(p, "output", "route")) then ""
        else PickText(p)
      case Str(s) =>
        var cleaned := Unquote(Trim(s));
        if Braced(cleaned) && parse(cleaned).Some? then
          var parsed := parse(cleaned).value;
          if IsRouting(parsed) then "" else CleanMessage(parsed, parse)
        else if IsRouting(Str(cleaned)) then ""
        else cleaned
  }

  /** The second look at `route` and `output.route` on an object can never fire. */
  lemma ObjectRecheckUnreachable(p: Value)
    requires p.Obj? && !IsRouting(p)
    ensures !Truthy(Get(p, "route")) && !Truthy(Get2(p, "output", "route"))
  {
  }

  /**
   * An object that is no routing record shows its first truthy `content`,
   * `message` or `text`, in that order, and nothing when it has none (no
   * fallback to its JSON text). An empty `content` falls through to `message`.
   */
  lemma CleanObjectPriority(o: Value, parse: Parser)
    requires ParsesObjects(parse)
    requires o.Obj? && !IsRouting(o)
    ensures Truthy(Get(o, "content")) ==> CleanMessage(o, parse) == Coerce(Get(o, "content"))
    ensures !Truthy(Get(o, "content")) && Truthy(Get(o, "message")) ==>
              CleanMessage(o, parse) == Coerce(Get(o, "message"))
    ensures !Truthy(Get(o, "content")) && !Truthy(Get(o, "message")) && Truthy(Get(o, "text")) ==>
              CleanMessage(o, parse) == Coerce(Get(o, "text"))
    ensures !Truthy(Get(o, "content")) && !Truthy(Get(o, "message")) && !Truthy(Get(o, "text")) ==>
              CleanMessage(o, parse) == ""
  {
    ObjectRecheckUnreachable(o);
  }

  /**
   * The string path: the trimmed, unquoted text is shown as it is and is then
   * never flagged, or it is brace-wrapped text that parses to an unflagged
   * object whose first text field is shown (one level of unwrapping, no more),
   * or the result is suppressed.
   */
  lemma CleanStringShape(s: string, parse: Parser)
    requires ParsesObjects(parse)
    ensures var cleaned := Unquote(Trim(s));
            var r := CleanMessage(Str(s), parse);
            || r == ""
            || (r == cleaned && !IsRouting(Str(r)) && !(Braced(cleaned) && parse(cleaned).Some?))
            || (Braced(cleaned) && parse(cleaned).Some? && parse(cleaned).value.Obj?
                && !IsRouting(parse(cleaned).value) && r == PickText(parse(cleaned).value))
  {
    var cleaned := Unquote(Trim(s));
    if Braced(cleaned) && parse(cleaned).Some? {
      CleanParsedString(s, parse);
    } else {
      CleanDirectString(s, parse);
    }
  }

  /** Brace-wrapped text that parses resolves as the object it parses to, or is suppressed. */
  lemma CleanParsedString(s: string, parse: Parser)
    requires ParsesObjects(parse)
    requires Braced(Unquote(Trim(s))) && parse(Unquote(Trim(s))).Some?
    ensures var parsed := parse(Unquote(Trim(s))).value;
            var r := CleanMessage(Str(s), parse);
            parsed.Obj? && (r == "" || (!IsRouting(parsed) && r == PickText(parsed)))
  {
    var parsed := parse(Unquote(Trim(s))).value;
    assert parsed.Obj?;
    if Truthy(Str(s)) && !IsRouting(Str(s)) && !IsRouting(parsed) {
      CleanUnflaggedObject(parsed, parse);
    }
  }

  /** Any other text is shown as it is once trimmed and unquoted, or is suppressed. */
  lemma CleanDirectString(s: string, parse: Parser)
    requires ParsesObjects(parse)
    requires !(Braced(Unquote(Trim(s))) && parse(Unquote(Trim(s))).Some?)
    ensures var r := CleanMessage(Str(s), parse);
            r == "" || (r == Unquote(Trim(s)) && !IsRouting(Str(r)))
  {
  }

  /** An object that is no routing record shows its first text field. */
  lemma CleanUnflaggedObject(o: Value, parse: Parser)
    requires ParsesObjects(parse)
    requires o.Obj? && !IsRouting(o)
    ensures CleanMessage(o, parse) == PickText(o)
  {
    ObjectRecheckUnreachable(o);
  }

  /** Trimmed, unquoted, unflagged text that is not a parsable object is shown unchanged. */
  lemma CleanFixedPoint(s: string, parse: Parser)
    requires ParsesObjects(parse)
    requires Trim(s) == s
    requires !(StartsWith(s, "\"") && EndsWith(s, "\""))
    requires !Braced(s) || parse(s).None?
    requires !IsRouting(Str(s))
    ensures CleanMessage(Str(s), parse) == s
  {
  }

  /** Quoted text keeps whatever padding it has inside the quotes. */
  lemma CleanKeepsQuotedPadding(t: string, parse: Parser)
    requires ParsesObjects(parse)
    requires t != [] && !IsRouting(Str("\"" + t + "\""))
    requires !Braced(t) || parse(t).None?
    requires !IsRouting(Str(t))
    ensures CleanMessage(Str("\"" + t + "\""), parse) == t
  {
    QuotedTextUnwraps(t);
    CleanPlainString("\"" + t + "\"", parse);
  }

  /** A string whose trimmed, unquoted text is unflagged and no parsable object shows that text. */
  lemma CleanPlainString(s: string, parse: Parser)
    requires ParsesObjects(parse)
    requires s != [] && !IsRouting(Str(s))
    requires var c := Unquote(Trim(s)); (!Braced(c) || parse(c).None?) && !IsRouting(Str(c))
    ensures CleanMessage(Str(s), parse) == Unquote(Trim(s))
  {
  }

  /** Quotes around a non-empty text survive trimming and are then removed again. */
  lemma QuotedTextUnwraps(t: string)
    requires t != []
    ensures var s := "\"" + t + "\""; Trim(s) == s && Unquote(s) == t
  {
    var s := "\"" + t + "\"";
    TrimOfTrimmed(s);
    assert s[1..|s| - 1] == t;
  }

  /** Text with leading padding never comes back unchanged. */
  lemma CleanDropsLeadingPadding(t: string, parse: Parser)
    requires ParsesObjects(parse)
    requires |t| > 0 && IsSpace(t[0])
    requires var inner := Unquote(Trim(t)); !Braced(inner) || parse(inner).None?
    ensures CleanMessage(Str(t), parse) != t
  {
    CleanStringShape(t, parse);
    assert |Trim(t)| < |t|;
  }

  /**
   * Cleaning is not idempotent: text that was quoted around leading padding
   * keeps the padding on the first pass and loses it on the second.
   */
  lemma CleanNotIdempotentOnPaddedQuotes(t: string, parse: Parser)
    requires ParsesObjects(parse)
    requires |t| > 0 && IsSpace(t[0])
    requires !IsRouting(Str("\"" + t + "\"")) && !IsRouting(Str(t))
    requires !Braced(t) || parse(t).None?
    requires var inner := Unquote(Trim(t)); !Braced(inner) || parse(inner).None?
    ensures var once := CleanMessage(Str("\"" + t + "\""), parse);
            once == t && CleanMessage(Str(once), parse) != once
  {
    CleanKeepsQuotedPadding(t, parse);
    CleanDropsLeadingPadding(t, parse);
  }

  /**
   * One layer of string encoding is unwrapped: the JSON text of an object that
   * is no routing record shows what the object shows, and the JSON text of a
   * routing record is suppressed like the record.
   */
  lemma EncodedObjectUnwrapped(o: Value, parse: Parser)
    requires ParsesObjects(parse)
    requires o.Obj? && parse(Stringify(o)) == Some(o)
    ensures CleanMessage(Str(Stringify(o)), parse) == CleanMessage(o, parse)
  {
    var text := Stringify(o);
    StringifyObjectBraces(o);
    TrimOfTrimmed(text);
    assert Unquote(Trim(text)) == text;
    if !IsRouting(o) {
      assert !IsRouting(Str(text));
    }
  }

  // ---------------------------------------------------------------------------
  // getRole
  // ---------------------------------------------------------------------------

  datatype Role = User | Assistant

  /** A stored history row; `createdAt` is None when the column is absent or empty. */
  datatype HistoryRow = HistoryRow(id: int, role: Value, message: Value, createdAt: Option<int>)

  /** The `message` column as `getRole` inspects it: parsed when it is text starting with `{`. */
  function RolePayload(row: HistoryRow, parse: Parser): (r: Value)
    ensures r == row.message
            || (row.message.Str? && StartsWith(row.message.s, "{") && parse(row.message.s) == Some(r))
  {
    match row.message
    case Str(s) =>
      if StartsWith(s, "{") then
        (match parse(s) case Some(parsed) => parsed case None => row.message)
      else row.message
    case _ => row.message
  }

  /** `getRole(msg)` */
  function GetRole(row: HistoryRow, parse: Parser): (r: Role)
    ensures r == Assistant ==> row.role == Str("assistant") || (row.role != Str("user") && RolePayload(row, parse).Obj?)
  {
    if row.role == Str("user") then User
    else if row.role == Str("assistant") then Assistant
    else
      var payload := RolePayload(row, parse);
      if payload.Obj? && Get(payload, "type") == Str("human") then User
      else if payload.Obj? && Get(payload, "type") == Str("ai") then Assistant
      else User
  }

  /**
   * An explicit role column wins; otherwise the nested `type` decides, `ai`
   * meaning the assistant; everything else, a parse failure included, is the user.
   */
  lemma GetRoleResolution(row: HistoryRow, parse: Parser)
    ensures row.role == Str("user") ==> GetRole(row, parse) == User
    ensures row.role == Str("assistant") ==> GetRole(row, parse) == Assistant
    ensures GetRole(row, parse) == Assistant <==>
              row.role == Str("assistant")
              || (row.role != Str("user") && Get(RolePayload(row, parse), "type") == Str("ai"))
    ensures (row.role != Str("user") && row.role != Str("assistant")
             && row.message.Str? && parse(row.message.s).None?) ==> GetRole(row, parse) == User
  {
  }
}
