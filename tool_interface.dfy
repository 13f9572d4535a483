/**
 * The video submission form: the static model catalogue, the YouTube URL
 * validator, the submit gate and the inline URL error (src/components/ToolInterface.tsx).
 */
module ToolInterface {
  import opened Wrappers

  // ---------------------------------------------------------------------------
  // Model catalogue
  // ---------------------------------------------------------------------------

  datatype ModelEntry = ModelEntry(id: string, displayName: string)

  /** The catalogue has a speech-recognition list and a language-model list. */
  datatype Catalogue = Catalogue(asr: seq<ModelEntry>, llm: seq<ModelEntry>)

  const WhisperId: string := "openai/whisper-large-v3"
  const MistralId: string := "mistralai/Mistral-7B-Instruct-v0.2"
  const LlamaId: string := "meta-llama/Llama-2-13b-chat-hf"

  const AvailableModels: Catalogue := Catalogue(
    [ModelEntry(WhisperId, "High-Quality Transcription (Whisper Large)")],
    [ModelEntry(MistralId, "Fast & Creative (Mistral 7B)"),
     ModelEntry(LlamaId, "Detailed & Thorough (Llama 13B)")])

  /** One option of the model drop-down: the value it selects and the text it shows. */
  datatype SelectItem = SelectItem(value: string, text: string)

  /** The drop-down options built from a list of catalogue entries, one per entry, in order. */
  function Options(entries: seq<ModelEntry>): (items: seq<SelectItem>)
    ensures |items| == |entries|
    ensures forall i :: 0 <= i < |entries| ==>
              items[i] == SelectItem(entries[i].id, entries[i].displayName)
  {
    if entries == [] then []
    else [SelectItem(entries[0].id, entries[0].displayName)] + Options(entries[1..])
  }

  /** The options the form offers: only the language models are listed. */
  function OfferedOptions(): seq<SelectItem>
  {
    Options(AvailableModels.llm)
  }

  /** The selectable values are exactly the two language-model ids, in catalogue
      order; the transcription model is never offered. */
  lemma OfferedAreLanguageModels()
    ensures |OfferedOptions()| == 2
    ensures OfferedOptions()[0].value == MistralId && OfferedOptions()[1].value == LlamaId
    ensures forall item :: item in OfferedOptions() ==> item.value != WhisperId
  {
    var items := OfferedOptions();
    assert items == [SelectItem(MistralId, "Fast & Creative (Mistral 7B)"),
                     SelectItem(LlamaId, "Detailed & Thorough (Llama 13B)")];
  }

  // ---------------------------------------------------------------------------
  // URL validation
  // ---------------------------------------------------------------------------

  /** The character class `[\w-]`: ASCII letters, digits, underscore and hyphen. */
  predicate IsIdChar(c: char)
  {
    ('A' <= c <= 'Z') || ('a' <= c <= 'z') || ('0' <= c <= '9') || c == '_' || c == '-'
  }

  /** The alternatives of the three groups of the pattern, each optional group with "" for "absent". */
  const Schemes: seq<string> := ["", "http://", "https://"]
  const Subdomains: seq<string> := ["", "www."]
  const Routes: seq<string> := ["youtube.com/watch?v=", "youtube.com/embed/", "youtu.be/"]

  /** Every character of `s` is in `[\w-]`. */
  predicate AllIdChars(s: string)
  {
    forall i :: 0 <= i < |s| ==> IsIdChar(s[i])
  }

  /** What the start-anchored, unterminated pattern accepts: the URL begins with
      some choice of scheme, subdomain and route followed by a non-empty run of id
      characters; anything may follow the match. */
  ghost predicate RegexMatches(url: string)
    ensures RegexMatches(url) ==> |url| >= 10  // the shortest match is `youtu.be/` and one id character
  {
    exists s, w, r, id :: s in Schemes && w in Subdomains && r in Routes &&
                          id != [] && AllIdChars(id) && s + (w + (r + id)) <= url
  }

  /** The scheme is optional; a present one is removed. */
  function AfterScheme(url: string): string
  {
    if "https://" <= url then url[8..]
    else if "http://" <= url then url[7..]
    else url
  }

  /** The `www.` subdomain is optional; a present one is removed. */
  function AfterSubdomain(url: string): string
  {
    if "www." <= url then url[4..] else url
  }

  /** One of the three routes must follow; what comes after it, or None. */
  function AfterRoute(url: string): Option<string>
  {
    if "youtube.com/watch?v=" <= url then Some(url[20..])
    else if "youtube.com/embed/" <= url then Some(url[18..])
    else if "youtu.be/" <= url then Some(url[9..])
    else None
  }

  /** The validator behind the form: prefixes are removed left to right and the
      video id must start with an id character. */
  predicate IsValidYouTubeUrl(url: string)
    ensures IsValidYouTubeUrl(url) ==> |url| >= 10  // as short as `youtu.be/x`, and no shorter
  {
    match AfterRoute(AfterSubdomain(AfterScheme(url)))
    case Some(rest) => |rest| > 0 && IsIdChar(rest[0])
    case None => false
  }

  /** The validator accepts exactly what the pattern matches. */
  lemma {:induction false} ValidIffRegex(url: string)
    ensures IsValidYouTubeUrl(url) <==> RegexMatches(url)
  {
    if IsValidYouTubeUrl(url) {
      ValidImpliesRegex(url);
    }
    if RegexMatches(url) {
      var s, w, r, id :| s in Schemes && w in Subdomains && r in Routes &&
                         id != [] && AllIdChars(id) && s + (w + (r + id)) <= url;
      RegexImpliesValid(url, s, w, r, id);
    }
  }

  // Small facts about prefixes.

  lemma PrefixSplit(a: string, b: string, url: string)
    requires a + b <= url
    ensures a <= url && b <= url[|a|..]
  {
    assert url[..|a|] == (a + b)[..|a|];
    assert url[|a|..][..|b|] == url[|a|..|a| + |b|];
  }

  lemma PrefixJoin(a: string, b: string, url: string)
    requires a <= url && b <= url[|a|..]
    ensures a + b <= url
  {
    assert (a + b) == url[..|a| + |b|];
  }

  /** What the validator removed as scheme is one of the scheme alternatives. */
  lemma SchemeRemoved(url: string) returns (s: string)
    ensures s in Schemes && s <= url && AfterScheme(url) == url[|s|..]
  {
    s := if "https://" <= url then "https://" else if "http://" <= url then "http://" else "";
  }

  /** What the validator removed as subdomain is one of the subdomain alternatives. */
  lemma SubdomainRemoved(a: string) returns (w: string)
    ensures w in Subdomains && w <= a && AfterSubdomain(a) == a[|w|..]
  {
    w := if "www." <= a then "www." else "";
  }

  /** What the validator removed as route is one of the route alternatives. */
  lemma RouteRemoved(b: string) returns (r: string)
    requires AfterRoute(b).Some?
    ensures r in Routes && r <= b && AfterRoute(b).value == b[|r|..]
  {
    r := if "youtube.com/watch?v=" <= b then "youtube.com/watch?v="
         else if "youtube.com/embed/" <= b then "youtube.com/embed/"
         else "youtu.be/";
  }

  /** The prefixes the validator removes spell out a match of the pattern. */
  lemma ValidImpliesRegex(url: string)
    requires IsValidYouTubeUrl(url)
    ensures RegexMatches(url)
  {
    var a := AfterScheme(url);
    var b := AfterSubdomain(a);
    var rest := AfterRoute(b).value;
    var s := SchemeRemoved(url);
    var w := SubdomainRemoved(a);
    var r := RouteRemoved(b);
    var id := [rest[0]];
    assert IsIdChar(id[0]);
    assert id <= b[|r|..];
    PrefixJoin(r, id, b);
    PrefixJoin(w, r + id, a);
    PrefixJoin(s, w + (r + id), url);
    MatchWitness(url, s, w, r, id);
  }

  /** A choice of alternatives and an id run at the start of the URL is a match. */
  lemma MatchWitness(url: string, s: string, w: string, r: string, id: string)
    requires s in Schemes && w in Subdomains && r in Routes
    requires id != [] && AllIdChars(id) && s + (w + (r + id)) <= url
    ensures RegexMatches(url)
  {
  }

  /** After a matched scheme comes `w` or `y`, so the validator removes that same scheme. */
  lemma SchemeStep(url: string, s: string)
    requires s in Schemes && s <= url && |url| > |s| && (url[|s|] == 'w' || url[|s|] == 'y')
    ensures AfterScheme(url) == url[|s|..]
  {
    if s == "" {
      assert url[0] != 'h';
    } else if s == "http://" {
      assert url[4] == ':';
    }
  }

  /** After a matched subdomain comes `y`, so the validator removes that same subdomain. */
  lemma SubdomainStep(a: string, w: string)
    requires w in Subdomains && w <= a && |a| > |w| && a[|w|] == 'y'
    ensures AfterSubdomain(a) == a[|w|..]
  {
    if w == "" {
      assert a[0] == 'y';
    }
  }

  /** The routes differ at a fixed position, so the validator removes the matched one. */
  lemma RouteStep(b: string, r: string)
    requires r in Routes && r <= b
    ensures AfterRoute(b) == Some(b[|r|..])
  {
    if r == "youtube.com/embed/" {
      assert b[12] == 'e';
    } else if r == "youtu.be/" {
      assert b[5] == '.';
    }
  }

  /** The first characters after each group: `w` or `y` after the scheme, `y` after the subdomain. */
  lemma GroupHeads(w: string, r: string, t: string)
    requires w in Subdomains && r in Routes
    ensures |w + (r + t)| > 0 && ((w + (r + t))[0] == 'w' || (w + (r + t))[0] == 'y')
    ensures |r + t| > 0 && (r + t)[0] == 'y'
  {
  }

  /** Removing the three groups of `s + (w + (r + t))` leaves exactly `t`. */
  lemma StripsToTail(url: string, s: string, w: string, r: string, t: string)
    requires s in Schemes && w in Subdomains && r in Routes && s + (w + (r + t)) <= url
    ensures AfterRoute(AfterSubdomain(AfterScheme(url))) == Some(url[|s| + |w| + |r|..])
  {
    GroupHeads(w, r, t);
    PrefixSplit(s, w + (r + t), url);
    var a := url[|s|..];
    assert a[0] == (w + (r + t))[0];
    SchemeStep(url, s);
    PrefixSplit(w, r + t, a);
    var b := a[|w|..];
    assert b[0] == (r + t)[0];
    SubdomainStep(a, w);
    PrefixSplit(r, t, b);
    RouteStep(b, r);
    assert b[|r|..] == url[|s| + |w| + |r|..];
  }

  /** Any match of the pattern is found by removing prefixes left to right. */
  lemma RegexImpliesValid(url: string, s: string, w: string, r: string, id: string)
    requires s in Schemes && w in Subdomains && r in Routes
    requires id != [] && AllIdChars(id) && s + (w + (r + id)) <= url
    ensures IsValidYouTubeUrl(url)
  {
    StripsToTail(url, s, w, r, id);
    var k := |s| + |w| + |r|;
    assert |s + (w + (r + id))| == k + |id|;
    assert url[k] == (s + (w + (r + id)))[k] == id[0];
  }

  /** A scheme, subdomain and route with no id character after them is rejected:
      in particular every bare prefix, such as `https://youtube.com/watch?v=`. */
  lemma RejectsWithoutId(s: string, w: string, r: string, t: string)
    requires s in Schemes && w in Subdomains && r in Routes
    requires t == [] || !IsIdChar(t[0])
    ensures !IsValidYouTubeUrl(s + (w + (r + t)))
  {
    var url := s + (w + (r + t));
    var k := |s| + |w| + |r|;
    StripsToTail(url, s, w, r, t);
    assert url[k..] == (w + (r + t))[|w|..][|r|..] == t;
  }

  /** The empty string is rejected. */
  lemma RejectsEmpty()
    ensures !IsValidYouTubeUrl("")
  {
  }

  /** A scheme, subdomain and route with nothing after them, such as
      `https://youtube.com/watch?v=`, is rejected. */
  lemma RejectsBarePrefix(s: string, w: string, r: string)
    requires s in Schemes && w in Subdomains && r in Routes
    ensures !IsValidYouTubeUrl(s + (w + r))
  {
    assert r + [] == r;
    RejectsWithoutId(s, w, r, []);
  }

  /** The pattern has no end anchor: whatever follows a valid URL keeps it valid. */
  lemma {:induction false} ValidExtends(u: string, t: string)
    requires IsValidYouTubeUrl(u)
    ensures IsValidYouTubeUrl(u + t)
  {
    ValidIffRegex(u);
    var s, w, r, id :| s in Schemes && w in Subdomains && r in Routes &&
                       id != [] && AllIdChars(id) && s + (w + (r + id)) <= u;
    var m := s + (w + (r + id));
    assert (u + t)[..|m|] == u[..|m|];
    RegexImpliesValid(u + t, s, w, r, id);
  }

  // Scheme and `www.` are optional and independent of each other.

  lemma AcceptsWithoutSchemeOrSubdomain(id: string)
    requires id != [] && AllIdChars(id)
    ensures IsValidYouTubeUrl("youtube.com/watch?v=" + id)
  {
    var r := "youtube.com/watch?v=";
    assert "" + ("" + (r + id)) == r + id;
    RegexImpliesValid(r + id, "", "", r, id);
  }

  lemma AcceptsSubdomainWithoutScheme(id: string)
    requires id != [] && AllIdChars(id)
    ensures IsValidYouTubeUrl("www." + ("youtu.be/" + id))
  {
    var w, r := "www.", "youtu.be/";
    assert "" + (w + (r + id)) == w + (r + id);
    RegexImpliesValid(w + (r + id), "", w, r, id);
  }

  lemma AcceptsSchemeAndSubdomain(id: string)
    requires id != [] && AllIdChars(id)
    ensures IsValidYouTubeUrl("http://" + ("www." + ("youtube.com/embed/" + id)))
  {
    RegexImpliesValid("http://" + ("www." + ("youtube.com/embed/" + id)), "http://", "www.", "youtube.com/embed/", id);
  }

  /** A valid URL starts, once the scheme is removed, with `www.` or `youtu`: the match
      is case-sensitive and admits no other subdomain. */
  lemma ValidHostStart(url: string)
    requires IsValidYouTubeUrl(url)
    ensures url[0] == 'h' || url[0] == 'w' || url[0] == 'y'
    ensures "www.youtu" <= AfterScheme(url) || "youtu" <= AfterScheme(url)
  {
    var a := AfterScheme(url);
    var b := AfterSubdomain(a);
    assert "youtu" <= b;
    if "www." <= a {
      assert a == "www." + b;
    }
  }

  /** Matching is case-sensitive. */
  lemma RejectsUpperCase()
    ensures !IsValidYouTubeUrl("HTTPS://YOUTUBE.COM/watch?v=x")
  {
    var u := "HTTPS://YOUTUBE.COM/watch?v=x";
    assert u[0] == 'H';
    if IsValidYouTubeUrl(u) {
      ValidHostStart(u);
    }
  }

  /** No subdomain other than `www.` is admitted. */
  lemma RejectsOtherSubdomain()
    ensures !IsValidYouTubeUrl("https://m.youtube.com/watch?v=x")
  {
    var v := "https://m.youtube.com/watch?v=x";
    assert v[..8] == "https://" && v[8] == 'm';
    if IsValidYouTubeUrl(v) {
      ValidHostStart(v);
    }
  }

  // ---------------------------------------------------------------------------
  // Submit gate and inline error
  // ---------------------------------------------------------------------------

  /** `videoUrl && isValidYouTubeUrl(videoUrl) && selectedModel && !isLoading`,
      with JavaScript string truthiness (non-empty). */
  predicate CanGenerate(videoUrl: string, selectedModel: string, isLoading: bool)
    ensures CanGenerate(videoUrl, selectedModel, isLoading)
            <==> RegexMatches(videoUrl) && selectedModel != "" && !isLoading
  {
    ValidIffRegex(videoUrl);
    videoUrl != "" && IsValidYouTubeUrl(videoUrl) && selectedModel != "" && !isLoading
  }

  /** The separate emptiness test on the URL adds nothing: the validator already rejects "". */
  lemma CanGenerateExactly(videoUrl: string, selectedModel: string, isLoading: bool)
    ensures CanGenerate(videoUrl, selectedModel, isLoading)
            <==> IsValidYouTubeUrl(videoUrl) && selectedModel != "" && !isLoading
  {
    RejectsEmpty();
  }

  /** The red border and the "Please enter a valid YouTube URL" line: a non-empty, invalid URL. */
  predicate ShowsUrlError(videoUrl: string)
    ensures ShowsUrlError(videoUrl) <==> videoUrl != "" && !RegexMatches(videoUrl)
  {
    ValidIffRegex(videoUrl);
    videoUrl != "" && !IsValidYouTubeUrl(videoUrl)
  }

  /** The inline error and the enabled button never appear together, and an empty
      field shows neither. */
  lemma UrlErrorExcludesSubmit(videoUrl: string, selectedModel: string, isLoading: bool)
    ensures ShowsUrlError(videoUrl) ==> !CanGenerate(videoUrl, selectedModel, isLoading)
    ensures videoUrl == "" ==> !ShowsUrlError(videoUrl) && !CanGenerate(videoUrl, selectedModel, isLoading)
  {
  }

  /** The call the form makes to its `onGenerate` callback. */
  datatype Submission = Submission(videoUrl: string, selectedModel: string)

  /** The form's two pieces of state, overwritten by the input handlers. */
  class Form {
    var videoUrl: string
    var selectedModel: string

    constructor ()
      ensures videoUrl == "" && selectedModel == ""
    {
      videoUrl := "";
      selectedModel := "";
    }

    /** The URL input's onChange handler. */
    method SetVideoUrl(url: string)
      modifies this
      ensures videoUrl == url && selectedModel == old(selectedModel)
    {
      videoUrl := url;
    }

    /** The model drop-down's onValueChange handler. */
    method SetSelectedModel(id: string)
      modifies this
      ensures selectedModel == id && videoUrl == old(videoUrl)
    {
      selectedModel := id;
    }

    /** The submit button: the callback is invoked with the form's values exactly
        when the gate is open, and nothing happens otherwise. */
    method HandleGenerate(isLoading: bool) returns (call: Option<Submission>)
      ensures call.Some? <==> IsValidYouTubeUrl(videoUrl) && selectedModel != "" && !isLoading
      ensures call.Some? ==> call.value == Submission(videoUrl, selectedModel)
    {
      if CanGenerate(videoUrl, selectedModel, isLoading) {
        call := Some(Submission(videoUrl, selectedModel));
      } else {
        call := None;
      }
    }
  }
}
