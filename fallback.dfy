/**
 * What the three retrieval functions share: the two sentinel strings that
 * stand in for a context, and the line that ties a text chunk to its source.
 */
module Fallback {

  /** The sentinel asking for an answer from general knowledge. */
  const GeneralKnowledgeRequest: string := "No relevant context found"

  /** The sentinel for "nothing to answer from". */
  const NoInformationFound: string := "no_information_found"

  /** `"No relevant context found" if use_general_knowledge else
      "no_information_found"`, for a flag that is already a truth value. */
  function SentinelText(useGeneral: bool): (s: string)
    ensures s == GeneralKnowledgeRequest <==> useGeneral
    ensures s == NoInformationFound <==> !useGeneral
  {
    if useGeneral then GeneralKnowledgeRequest else NoInformationFound
  }

  /** `f"\nSource URL: {link}"`, the line after a text chunk. */
  function SourceLine(link: string): string
  {
    "\nSource URL: " + link
  }
}
