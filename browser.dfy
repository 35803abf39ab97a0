/** The shared headless browser, reduced to the number of pages (tabs) it has open. */
module BrowserSession {

  class Browser {
    var openPages: nat

    constructor ()
      ensures openPages == 0
    {
      openPages := 0;
    }

    /** `browser.newPage()`. */
    method NewPage()
      modifies this
      ensures openPages == old(openPages) + 1
    {
      openPages := openPages + 1;
    }

    /** `page.close()`. */
    method ClosePage()
      requires openPages > 0
      modifies this
      ensures openPages == old(openPages) - 1
    {
      openPages := openPages - 1;
    }
  }
}
