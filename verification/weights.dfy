/** The fixed permission-weight table of the scorer (Chrome Enterprise permission
    risk rubric, July 2019): each listed permission name has an integer weight
    between 1 and 9; the table is written here grouped by weight. */
module PermissionWeights {

  const Weight9: set<string> := {
    "<all_urls>", "nativeMessaging", "debugger", "cookies", "downloads", "proxy"
  }

  const Weight8: set<string> := {
    "tabs", "history", "unsafe-eval", "webRequestBlocking", "browsingData", "privacy"
  }

  const Weight7: set<string> := {
    "audioCapture", "videoCapture", "tabCapture", "desktopCapture", "pageCapture",
    "scripting", "hid", "socket", "usb", "usbDevices", "vpnProvider"
  }

  const Weight6: set<string> := {
    "bookmarks", "geolocation", "webRequest", "management", "contentSettings",
    "webNavigation", "app.window.fullscreen.overrideEsc", "declarativeNetRequest",
    "declarativeWebRequest", "experimental"
  }

  const Weight5: set<string> := {
    "activeTab", "identity", "identity.email", "topSites", "content_security_policy",
    "copresence"
  }

  const Weight4: set<string> := {
    "clipboardRead", "clipboardWrite", "contextMenus", "fileSystem",
    "fileSystem.directory", "fileSystem.write", "syncFileSystem",
    "web_accessible_resources"
  }

  const Weight3: set<string> := {
    "system.memory", "system.cpu", "system.display", "processes", "system.storage",
    "unlimitedStorage", "externally_connectable"
  }

  const Weight2: set<string> := {
    "storage", "notifications", "sessions", "tts", "mediaGalleries"
  }

  const Weight1: set<string> := {
    "alarms", "background", "declarativeContent", "idle", "fontSettings", "power",
    "wallpaper", "gcm", "homepage_url", "platformKeys", "signedInDevices"
  }

  /** Every name the table lists. */
  const TableNames: set<string> :=
    Weight9 + Weight8 + Weight7 + Weight6 + Weight5 + Weight4 + Weight3 + Weight2 + Weight1

  /** `permission_weights.get(name, 0)`: the listed weight, 0 for any other name. */
  function Weight(name: string): (w: nat)
    ensures w <= 9
    ensures w > 0 <==> name in TableNames
  {
    if name in Weight9 then 9
    else if name in Weight8 then 8
    else if name in Weight7 then 7
    else if name in Weight6 then 6
    else if name in Weight5 then 5
    else if name in Weight4 then 4
    else if name in Weight3 then 3
    else if name in Weight2 then 2
    else if name in Weight1 then 1
    else 0
  }

  /** The names the table lists with weight `w`; none for a weight outside 1..9. */
  function Tier(w: nat): set<string> {
    if w == 9 then Weight9
    else if w == 8 then Weight8
    else if w == 7 then Weight7
    else if w == 6 then Weight6
    else if w == 5 then Weight5
    else if w == 4 then Weight4
    else if w == 3 then Weight3
    else if w == 2 then Weight2
    else if w == 1 then Weight1
    else {}
  }

  /** The first-match lookup hides no listing: a name weighs `w` exactly when the
      table lists it with weight `w`, because no name is listed twice. */
  lemma WeightIsTier(name: string, w: nat)
    requires 1 <= w <= 9
    ensures Weight(name) == w <==> name in Tier(w)
  {
    Below9();
    Below8();
    Below7();
    Below6();
    Below5();
    Below4();
    Below3();
    Below2();
  }

  /** No name of weight 9 is listed with a lower weight. */
  lemma Below9()
    ensures Weight9 !! Weight8
    ensures Weight9 !! Weight7
    ensures Weight9 !! Weight6
    ensures Weight9 !! Weight5
    ensures Weight9 !! Weight4
    ensures Weight9 !! Weight3
    ensures Weight9 !! Weight2
    ensures Weight9 !! Weight1
  {
    Disjoint98();
    Disjoint97();
    Disjoint96();
    Disjoint95();
    Disjoint94();
    Disjoint93();
    Disjoint92();
    Disjoint91();
  }

  /** No name of weight 8 is listed with a lower weight. */
  lemma Below8()
    ensures Weight8 !! Weight7
    ensures Weight8 !! Weight6
    ensures Weight8 !! Weight5
    ensures Weight8 !! Weight4
    ensures Weight8 !! Weight3
    ensures Weight8 !! Weight2
    ensures Weight8 !! Weight1
  {
    Disjoint87();
    Disjoint86();
    Disjoint85();
    Disjoint84();
    Disjoint83();
    Disjoint82();
    Disjoint81();
  }

  /** No name of weight 7 is listed with a lower weight. */
  lemma Below7()
    ensures Weight7 !! Weight6
    ensures Weight7 !! Weight5
    ensures Weight7 !! Weight4
    ensures Weight7 !! Weight3
    ensures Weight7 !! Weight2
    ensures Weight7 !! Weight1
  {
    Disjoint76();
    Disjoint75();
    Disjoint74();
    Disjoint73();
    Disjoint72();
    Disjoint71();
  }

  /** No name of weight 6 is listed with a lower weight. */
  lemma Below6()
    ensures Weight6 !! Weight5
    ensures Weight6 !! Weight4
    ensures Weight6 !! Weight3
    ensures Weight6 !! Weight2
    ensures Weight6 !! Weight1
  {
    Disjoint65();
    Disjoint64();
    Disjoint63();
    Disjoint62();
    Disjoint61();
  }

  /** No name of weight 5 is listed with a lower weight. */
  lemma Below5()
    ensures Weight5 !! Weight4
    ensures Weight5 !! Weight3
    ensures Weight5 !! Weight2
    ensures Weight5 !! Weight1
  {
    Disjoint54();
    Disjoint53();
    Disjoint52();
    Disjoint51();
  }

  /** No name of weight 4 is listed with a lower weight. */
  lemma Below4()
    ensures Weight4 !! Weight3
    ensures Weight4 !! Weight2
    ensures Weight4 !! Weight1
  {
    Disjoint43();
    Disjoint42();
    Disjoint41();
  }

  /** No name of weight 3 is listed with a lower weight. */
  lemma Below3()
    ensures Weight3 !! Weight2
    ensures Weight3 !! Weight1
  {
    Disjoint32();
    Disjoint31();
  }

  /** No name of weight 2 is listed with a lower weight. */
  lemma Below2()
    ensures Weight2 !! Weight1
  {
    Disjoint21();
  }

  // Each pair of tiers shares no name.
  lemma Disjoint98() ensures Weight9 !! Weight8 { }
  lemma Disjoint97() ensures Weight9 !! Weight7 { }
  lemma Disjoint96() ensures Weight9 !! Weight6 { }
  lemma Disjoint95() ensures Weight9 !! Weight5 { }
  lemma Disjoint94() ensures Weight9 !! Weight4 { }
  lemma Disjoint93() ensures Weight9 !! Weight3 { }
  lemma Disjoint92() ensures Weight9 !! Weight2 { }
  lemma Disjoint91() ensures Weight9 !! Weight1 { }
  lemma Disjoint87() ensures Weight8 !! Weight7 { }
  lemma Disjoint86() ensures Weight8 !! Weight6 { }
  lemma Disjoint85() ensures Weight8 !! Weight5 { }
  lemma Disjoint84() ensures Weight8 !! Weight4 { }
  lemma Disjoint83() ensures Weight8 !! Weight3 { }
  lemma Disjoint82() ensures Weight8 !! Weight2 { }
  lemma Disjoint81() ensures Weight8 !! Weight1 { }
  lemma Disjoint76() ensures Weight7 !! Weight6 { }
  lemma Disjoint75() ensures Weight7 !! Weight5 { }
  lemma Disjoint74() ensures Weight7 !! Weight4 { }
  lemma Disjoint73() ensures Weight7 !! Weight3 { }
  lemma Disjoint72() ensures Weight7 !! Weight2 { }
  lemma Disjoint71() ensures Weight7 !! Weight1 { }
  lemma Disjoint65() ensures Weight6 !! Weight5 { }
  lemma Disjoint64() ensures Weight6 !! Weight4 { }
  lemma Disjoint63() ensures Weight6 !! Weight3 { }
  lemma Disjoint62() ensures Weight6 !! Weight2 { }
  lemma Disjoint61() ensures Weight6 !! Weight1 { }
  lemma Disjoint54() ensures Weight5 !! Weight4 { }
  lemma Disjoint53() ensures Weight5 !! Weight3 { }
  lemma Disjoint52() ensures Weight5 !! Weight2 { }
  lemma Disjoint51() ensures Weight5 !! Weight1 { }
  lemma Disjoint43() ensures Weight4 !! Weight3 { }
  lemma Disjoint42() ensures Weight4 !! Weight2 { }
  lemma Disjoint41() ensures Weight4 !! Weight1 { }
  lemma Disjoint32() ensures Weight3 !! Weight2 { }
  lemma Disjoint31() ensures Weight3 !! Weight1 { }
  lemma Disjoint21() ensures Weight2 !! Weight1 { }
}
