/** The section editor: a list of contract sections whose text the user edits,
    a version toggle, and a fixed list of analysis findings. */
module Editor {
  import opened Options

  datatype SectionStatus = Complete | NeedsReview | MissingInfo

  datatype ContractSection = ContractSection(
    id: string,
    title: string,
    content: string,
    status: SectionStatus,
    recommendations: Option<seq<string>>)

  /** Which copy of the contract is shown; only the toggle buttons read it. */
  datatype Version = Main | Local

  /** One entry of the "Issues Found" panel. */
  datatype Issue = Issue(kind: string, message: string)

  const InitialSections: seq<ContractSection> := [
    ContractSection("1", "Parties",
      "This Service Agreement (\"Agreement\") is entered into on [DATE] between [CLIENT_NAME], and Aramco Digital Company.",
      NeedsReview, Some(["Specify the exact date", "Complete client name and address"])),
    ContractSection("2", "Scope of Services",
      "The Contractor shall provide digital transformation consulting services including but not limited to...",
      MissingInfo, Some(["Define specific deliverables", "Add timeline requirements"])),
    ContractSection("3", "Payment Terms",
      "Payment shall be made within thirty (30) days of invoice receipt. Total contract value: [AMOUNT]",
      NeedsReview, Some(["Specify currency", "Add payment method details"]))
  ]

  const InitialErrors: seq<Issue> := [
    Issue("missing", "Contract date not specified in Parties section"),
    Issue("incomplete", "Payment amount placeholder not filled"),
    Issue("recommendation", "Consider adding a dispute resolution clause")
  ]

  /** The ids of the sections, in order. */
  function Ids(sections: seq<ContractSection>): (r: seq<string>)
    ensures |r| == |sections|
    ensures forall i :: 0 <= i < |sections| ==> r[i] == sections[i].id
  {
    if sections == [] then [] else [sections[0].id] + Ids(sections[1..])
  }

  /** The `map` inside `updateSection`: every section with the given id gets
      the new content, every other section is kept as it is. */
  function ReplaceContent(sections: seq<ContractSection>, id: string, content: string): seq<ContractSection>
  {
    if sections == [] then []
    else [if sections[0].id == id then sections[0].(content := content) else sections[0]]
         + ReplaceContent(sections[1..], id, content)
  }

  /** Length and position are preserved; a matching section changes only its
      content, which becomes exactly the new text; any other section is
      untouched. */
  lemma {:induction false} ReplaceContentAt(sections: seq<ContractSection>, id: string, content: string, i: int)
    requires 0 <= i < |sections|
    ensures |ReplaceContent(sections, id, content)| == |sections|
    ensures var s, r := sections[i], ReplaceContent(sections, id, content)[i];
      r.id == s.id && r.title == s.title && r.status == s.status && r.recommendations == s.recommendations
      && r.content == (if s.id == id then content else s.content)
      && (s.id != id ==> r == s)
  {
    if i > 0 {
      ReplaceContentAt(sections[1..], id, content, i - 1);
    } else {
      ReplaceContentLength(sections[1..], id, content);
    }
  }

  lemma {:induction false} ReplaceContentLength(sections: seq<ContractSection>, id: string, content: string)
    ensures |ReplaceContent(sections, id, content)| == |sections|
  {
    if sections != [] {
      ReplaceContentLength(sections[1..], id, content);
    }
  }

  /** The ids, and so the order of the sections, do not change. */
  lemma {:induction false} ReplaceContentKeepsIds(sections: seq<ContractSection>, id: string, content: string)
    ensures Ids(ReplaceContent(sections, id, content)) == Ids(sections)
  {
    if sections != [] {
      ReplaceContentKeepsIds(sections[1..], id, content);
    }
  }

  /** An id that no section has changes nothing. */
  lemma {:induction false} ReplaceContentUnknownId(sections: seq<ContractSection>, id: string, content: string)
    requires id !in Ids(sections)
    ensures ReplaceContent(sections, id, content) == sections
  {
    if sections != [] {
      assert Ids(sections) == [sections[0].id] + Ids(sections[1..]);
      ReplaceContentUnknownId(sections[1..], id, content);
    }
  }

  /** A second edit of the same section overrides the first. */
  lemma {:induction false} ReplaceContentLastWins(sections: seq<ContractSection>, id: string, first: string, second: string)
    ensures ReplaceContent(ReplaceContent(sections, id, first), id, second) == ReplaceContent(sections, id, second)
  {
    if sections != [] {
      ReplaceContentLastWins(sections[1..], id, first, second);
    }
  }

  /** Applying the same edit twice is applying it once. */
  lemma ReplaceContentIdempotent(sections: seq<ContractSection>, id: string, content: string)
    ensures ReplaceContent(ReplaceContent(sections, id, content), id, content) == ReplaceContent(sections, id, content)
  {
    ReplaceContentLastWins(sections, id, content, content);
  }

  /** Edits of different sections do not interfere. */
  lemma {:induction false} ReplaceContentCommutes(sections: seq<ContractSection>, a: string, x: string, b: string, y: string)
    requires a != b
    ensures ReplaceContent(ReplaceContent(sections, a, x), b, y) == ReplaceContent(ReplaceContent(sections, b, y), a, x)
  {
    if sections != [] {
      ReplaceContentCommutes(sections[1..], a, x, b, y);
    }
  }

  /** The component's state. `errors` has no setter, so it is a constant. */
  class ContractEditor {
    var activeVersion: Version
    var contractSections: seq<ContractSection>
    const errors: seq<Issue>

    constructor ()
      ensures activeVersion == Local && contractSections == InitialSections && errors == InitialErrors
    {
      activeVersion := Local;
      contractSections := InitialSections;
      errors := InitialErrors;
    }

    /** `updateSection(id, content)`, called on every keystroke in a section's
        text area. */
    method UpdateSection(id: string, content: string)
      modifies this`contractSections
      ensures contractSections == ReplaceContent(old(contractSections), id, content)
      ensures Ids(contractSections) == Ids(old(contractSections))
    {
      ReplaceContentKeepsIds(contractSections, id, content);
      contractSections := ReplaceContent(contractSections, id, content);
    }

    /** The "Local Copy" and "Live Copy" buttons. */
    method SetActiveVersion(v: Version)
      modifies this`activeVersion
      ensures activeVersion == v
    {
      activeVersion := v;
    }
  }
}
