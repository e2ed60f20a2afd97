/**
 The rules behind the `prompt:configure` questions: which servers and which
 tags or branches the operator is offered, the preselected server, and when
 the production question is asked.
 */
module Prompts {
  import opened JsText
  import opened LexOrder
  import opened TagList
  import opened Manifest

  /** "test" */
  const Test: JsString := [0x74, 0x65, 0x73, 0x74]
  /** "prod" */
  const Prod: JsString := [0x70, 0x72, 0x6F, 0x64]
  /** "master" */
  const Master: JsString := [0x6D, 0x61, 0x73, 0x74, 0x65, 0x72]
  /** "develop" */
  const Develop: JsString := [0x64, 0x65, 0x76, 0x65, 0x6C, 0x6F, 0x70]

  /** The choices of the server question: every server name once, in the
      order the manifest lists them, and nothing else. */
  function ServerChoices(servers: ServerTable): seq<JsString> {
    if |servers| == 0 then []
    else [servers[0].name] + ServerChoices(servers[1..])
  }

  lemma {:induction false} ServerChoicesAreNames(servers: ServerTable)
    ensures |ServerChoices(servers)| == |servers|
    ensures forall i :: 0 <= i < |servers| ==> ServerChoices(servers)[i] == servers[i].name
    ensures forall i, j :: 0 <= i < j < |servers| ==> ServerChoices(servers)[i] != ServerChoices(servers)[j]
    ensures forall n :: n in ServerChoices(servers) <==> Lookup(servers, n).Some?
  {
    if |servers| > 0 {
      ServerChoicesAreNames(servers[1..]);
    }
    var choices := ServerChoices(servers);
    forall n ensures n in choices <==> Lookup(servers, n).Some? {
      LookupFinds(servers, n);
    }
  }

  /** The default of the server question: "test" when the manifest has a
      server of that name, otherwise the empty string. */
  function DefaultServer(servers: ServerTable): JsString {
    if Lookup(servers, Test).Some? then Test else []
  }

  /** The default is always one of the choices, or empty when "test" is not
      among them. */
  lemma DefaultServerIsOffered(servers: ServerTable)
    ensures DefaultServer(servers) == Test <==> Test in ServerChoices(servers)
    ensures DefaultServer(servers) != Test ==> DefaultServer(servers) == []
    ensures DefaultServer(servers) != [] ==> DefaultServer(servers) in ServerChoices(servers)
  {
    ServerChoicesAreNames(servers);
  }

  /** The `when` of the production question: asked only after "prod" was
      chosen, compared with `===`. */
  predicate AsksProductionConfirmation(selectedServer: JsString) {
    selectedServer == Prod
  }

  /** The choices of the tag question: "master" and "develop" first, then
      the stored tag list when the listing stored an array, and nothing more
      when it did not. */
  function TagChoices(stored: Option<seq<JsString>>): (choices: seq<JsString>)
    ensures |choices| >= 2 && choices[0] == Master && choices[1] == Develop
    ensures stored.Some? ==> choices[2..] == stored.value
    ensures stored.None? ==> |choices| == 2
  {
    [Master, Develop] + (if stored.Some? then stored.value else [])
  }

  /** Fed by the tag listing, the tag question offers at most twelve
      entries: the two branches, then the listed tags greatest first. */
  lemma TagChoicesAfterListing(stdout: Option<JsString>)
    requires WellFormedOutput(stdout)
    ensures var choices := TagChoices(Some(CleanTags(stdout)));
      && 2 <= |choices| <= 2 + MaxTags
      && choices[..2] == [Master, Develop]
      && Descending(choices[2..])
  {
    var choices := TagChoices(Some(CleanTags(stdout)));
    CleanTagsAreGreatest(stdout);
    assert choices[2..] == CleanTags(stdout);
  }
}
