/** The page-side listener of the extension (`chrome.runtime.onMessage`):
    answers an `extract_dom` request with the extraction result. */
module ContentScript {
  import opened Wrappers
  import opened Dom
  import opened Extractor
  import opened Protocol

  /** The listener's response for `request`: the extraction result for
      `extract_dom`, and no response for any other action. */
  method OnMessage(page: Page, request: Request) returns (response: Option<ExtractionResult>)
    ensures request.action == ExtractAction ==> response == Some(Extract(page, request.nodeId))
    ensures request.action != ExtractAction ==> response == None
  {
    if request.action == ExtractAction {
      var result := ExtractDomTree(page, request.nodeId);
      return Some(result);
    }
    return None;
  }
}
