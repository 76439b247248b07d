/** The companion Node server (server.js): the camera list parsed out of
    ffmpeg's device listing, and the append-only user store. */
module Server {
  import opened Wrappers
  import opened Text

  /** The line after which ffmpeg lists the video devices (server.js:53). */
  const VideoDevicesHeader: string := "DirectShow video devices"

  /** A camera descriptor `{ id, label }`; the server gives both the device name. */
  datatype Camera = Camera(id: string, labelText: string)

  // ---------------------------------------------------------------------------
  // The regular expression /"([^"]+)"/

  /** `s[p..q+1]` is a match of /"([^"]+)"/: quotes at both ends, at least one
      character between them and no quote among those characters. */
  predicate QuotedAt(s: string, p: nat, q: nat) {
    p + 1 < q < |s| && s[p] == '"' && s[q] == '"' && forall k :: p < k < q ==> s[k] != '"'
  }

  /** The leftmost match that starts at `i` or later, as the positions of its
      quotes (what it means is stated by `MatchFromMeaning`). */
  function MatchFrom(s: string, i: nat): (r: Option<(nat, nat)>)
    requires i <= |s|
    ensures r.Some? ==> i <= r.value.0 && r.value.0 + 1 < r.value.1 < |s|
    decreases |s| - i
  {
    if i == |s| then None
    else if s[i] != '"' then MatchFrom(s, i + 1)
    else
      match FirstChar(s[i + 1..], '"')
      case None => None
      case Some(k) => if k == 0 then MatchFrom(s, i + 1) else Some((i, i + 1 + k))
  }

  /** Without a quote after position `i`, no match starts at `i` or later. */
  lemma NoClosingQuote(s: string, i: nat)
    requires i < |s| && '"' !in s[i + 1..]
    ensures forall p: nat, q: nat :: i <= p ==> !QuotedAt(s, p, q)
  {
    forall p: nat, q: nat | i <= p
      ensures !QuotedAt(s, p, q)
    {
      if p + 1 < q < |s| {
        assert s[q] == s[i + 1..][q - i - 1];
      }
    }
  }

  /** A quote at `i`, the next quote `k + 1` characters later and at least one
      character between them make a match. */
  lemma ClosingQuote(s: string, i: nat, k: nat)
    requires i < |s| && s[i] == '"' && 0 < k < |s| - i - 1
    requires s[i + 1..][k] == '"' && '"' !in s[i + 1..][..k]
    ensures QuotedAt(s, i, i + 1 + k)
  {
    forall m | i < m < i + 1 + k
      ensures s[m] != '"'
    {
      assert s[m] == s[i + 1..][..k][m - i - 1];
    }
  }

  /** `MatchFrom` finds a match, none to the left of it, and fails exactly when
      there is no match at or after `i`. */
  lemma {:induction false} MatchFromMeaning(s: string, i: nat)
    requires i <= |s|
    ensures var r := MatchFrom(s, i);
      r.Some? ==> QuotedAt(s, r.value.0, r.value.1)
    ensures var r := MatchFrom(s, i);
      r.Some? ==> forall p: nat, q: nat :: i <= p < r.value.0 ==> !QuotedAt(s, p, q)
    ensures MatchFrom(s, i).None? <==> forall p: nat, q: nat :: i <= p ==> !QuotedAt(s, p, q)
    decreases |s| - i
  {
    if i == |s| {
    } else if s[i] != '"' {
      MatchFromMeaning(s, i + 1);
    } else {
      var rest := s[i + 1..];
      FirstCharMeaning(rest, '"');
      match FirstChar(rest, '"')
      case None =>
        NoClosingQuote(s, i);
      case Some(k) =>
        if k == 0 {
          assert s[i + 1] == '"';
          MatchFromMeaning(s, i + 1);
        } else {
          ClosingQuote(s, i, k);
        }
    }
  }

  /** `line.match(/"([^"]+)"/)?.[1]`: the text inside the leftmost pair of
      quotes that encloses at least one character. */
  function QuotedName(line: string): (r: Option<string>)
    ensures r.Some? ==> |r.value| > 0
  {
    match MatchFrom(line, 0)
    case None => None
    case Some((p, q)) => Some(line[p + 1..q])
  }

  /** The capture is non-empty, free of quotes and enclosed by the leftmost
      match; there is no capture exactly when the line holds no match. */
  lemma QuotedNameMeaning(line: string)
    ensures var r := QuotedName(line);
      r.Some? ==> |r.value| > 0 && '"' !in r.value
    ensures var r := QuotedName(line);
      r.Some? ==> exists p: nat, q: nat ::
        && QuotedAt(line, p, q)
        && r.value == line[p + 1..q]
        && forall p': nat, q': nat :: p' < p ==> !QuotedAt(line, p', q')
    ensures QuotedName(line).None? <==> forall p: nat, q: nat :: !QuotedAt(line, p, q)
  {
    MatchFromMeaning(line, 0);
    if MatchFrom(line, 0).Some? {
      var (p, q) := MatchFrom(line, 0).value;
    }
  }

  // ---------------------------------------------------------------------------
  // The camera list (server.js:50-68)

  /** The index of the first line that contains `marker` (for the handler,
      the video-device header). */
  function FirstLineWith(lines: seq<string>, marker: string): (r: Option<nat>)
    ensures r.Some? ==> r.value < |lines|
  {
    if |lines| == 0 then None
    else if Contains(lines[0], marker) then Some(0)
    else match FirstLineWith(lines[1..], marker)
      case None => None
      case Some(k) => Some(k + 1)
  }

  /** The line found contains the marker and no line before it does; there is
      none exactly when no line contains the marker. */
  lemma {:induction false} FirstLineWithMeaning(lines: seq<string>, marker: string)
    ensures var r := FirstLineWith(lines, marker);
      r.Some? ==> Contains(lines[r.value], marker)
    ensures var r := FirstLineWith(lines, marker);
      r.Some? ==> forall j :: 0 <= j < r.value ==> !Contains(lines[j], marker)
    ensures FirstLineWith(lines, marker).None? <==> forall j :: 0 <= j < |lines| ==> !Contains(lines[j], marker)
  {
    if |lines| > 0 && !Contains(lines[0], marker) {
      FirstLineWithMeaning(lines[1..], marker);
      assert forall j :: 1 <= j < |lines| ==> lines[j] == lines[1..][j - 1];
    }
  }

  /** The first marked line depends only on the lines up to and including it. */
  lemma {:induction false} FirstLineWithOfPrefix(a: seq<string>, b: seq<string>, marker: string, n: nat)
    requires n <= |a| && n <= |b| && a[..n] == b[..n]
    requires FirstLineWith(a, marker).Some? && FirstLineWith(a, marker).value < n
    ensures FirstLineWith(b, marker) == FirstLineWith(a, marker)
  {
    assert a[0] == a[..n][0] == b[..n][0] == b[0];
    if !Contains(a[0], marker) {
      assert a[1..][..n - 1] == a[..n][1..] == b[..n][1..] == b[1..][..n - 1];
      FirstLineWithOfPrefix(a[1..], b[1..], marker, n - 1);
    }
  }

  /** Searching from line `i` on: one step of the search. */
  lemma FirstLineWithFrom(lines: seq<string>, marker: string, i: nat)
    requires i < |lines|
    ensures FirstLineWith(lines[i..], marker) ==
      if Contains(lines[i], marker) then Some(0)
      else match FirstLineWith(lines[i + 1..], marker) case None => None case Some(k) => Some(k + 1)
  {
    assert lines[i..][0] == lines[i];
    assert lines[i..][1..] == lines[i + 1..];
  }

  /** What one scanned line contributes: the regular expression's capture as
      both id and label, or nothing when the line has no match. */
  function LineCameras(line: string): (r: seq<Camera>)
    ensures |r| <= 1
  {
    match QuotedName(line)
    case None => []
    case Some(n) => [Camera(n, n)]
  }

  /** The cameras found from line `i` on, up to the first line without a quote. */
  function ScanFrom(lines: seq<string>, i: nat): (r: seq<Camera>)
    requires i <= |lines|
    ensures |r| <= |lines| - i
    decreases |lines| - i
  {
    if i == |lines| || '"' !in lines[i] then []
    else LineCameras(lines[i]) + ScanFrom(lines, i + 1)
  }

  /** The cameras listed after the first line that contains `marker`. */
  function CamerasAfter(lines: seq<string>, marker: string): seq<Camera> {
    match FirstLineWith(lines, marker)
    case None => []
    case Some(h) => ScanFrom(lines, h + 1)
  }

  /** The cameras `/api/cameras` answers with for these lines of ffmpeg's output. */
  function CamerasIn(lines: seq<string>): (r: seq<Camera>)
    ensures FirstLineWith(lines, VideoDevicesHeader).None? ==> r == []
    ensures |r| < |lines| || r == []
  {
    CamerasAfter(lines, VideoDevicesHeader)
  }

  /** Without a marked line there are no cameras; with one, there are at most
      as many cameras as lines after it. */
  lemma CamerasBound(lines: seq<string>, marker: string)
    ensures FirstLineWith(lines, marker).None? ==> CamerasAfter(lines, marker) == []
    ensures FirstLineWith(lines, marker).Some? ==>
      |CamerasAfter(lines, marker)| <= |lines| - FirstLineWith(lines, marker).value - 1
  {
  }

  /** Line `j` is reached by a scan from line `i` (every line from `i` to `j`
      contains a quote) and its capture is `id`. */
  predicate ScannedAt(lines: seq<string>, i: nat, j: nat, id: string) {
    i <= j < |lines| && QuotedName(lines[j]) == Some(id) &&
    forall m :: i <= m <= j ==> '"' in lines[m]
  }

  /** Every camera found from line `i` on has the same id and label, the
      capture of the regular expression in some line the scan reached. */
  lemma {:induction false} ScanFromSound(lines: seq<string>, i: nat)
    requires i <= |lines|
    ensures forall c :: c in ScanFrom(lines, i) ==>
      c.id == c.labelText && exists j :: ScannedAt(lines, i, j, c.id)
    decreases |lines| - i
  {
    if i < |lines| && '"' in lines[i] {
      ScanFromSound(lines, i + 1);
      var here := LineCameras(lines[i]);
      assert ScanFrom(lines, i) == here + ScanFrom(lines, i + 1);
      forall c | c in ScanFrom(lines, i)
        ensures c.id == c.labelText && exists j :: ScannedAt(lines, i, j, c.id)
      {
        if c in here {
          assert ScannedAt(lines, i, i, c.id);
        } else {
          var j :| ScannedAt(lines, i + 1, j, c.id);
          assert ScannedAt(lines, i, j, c.id);
        }
      }
    }
  }

  /** A line with a quote but no match adds no camera and does not end the
      scan. */
  lemma NoMatchSkipped(lines: seq<string>, i: nat)
    requires i < |lines| && '"' in lines[i] && QuotedName(lines[i]).None?
    ensures ScanFrom(lines, i) == ScanFrom(lines, i + 1)
  {
  }

  /** Every line the scan reaches contributes its capture: a line `j` whose
      predecessors from `i` on all contain a quote gives its camera. */
  lemma {:induction false} ScanFromComplete(lines: seq<string>, i: nat, j: nat, n: string)
    requires ScannedAt(lines, i, j, n)
    ensures Camera(n, n) in ScanFrom(lines, i)
    decreases j - i
  {
    assert '"' in lines[i];
    assert ScanFrom(lines, i) == LineCameras(lines[i]) + ScanFrom(lines, i + 1);
    if i < j {
      ScanFromComplete(lines, i + 1, j, n);
    }
  }

  /** The scan stops at the first line without a quote: two outputs that agree
      up to such a line `e` give the same scan, whatever follows it. */
  lemma {:induction false} ScanIgnoresRest(a: seq<string>, b: seq<string>, i: nat, e: nat)
    requires i <= e < |a| && e < |b| && a[..e + 1] == b[..e + 1]
    requires '"' !in a[e]
    ensures ScanFrom(b, i) == ScanFrom(a, i)
    decreases e - i
  {
    assert a[i] == a[..e + 1][i] == b[..e + 1][i] == b[i];
    if i < e && '"' in a[i] {
      ScanIgnoresRest(a, b, i + 1, e);
    }
  }

  /** With the first marked line at `h`, the cameras are those scanned from `h + 1`. */
  lemma CamerasAfterAt(lines: seq<string>, marker: string, h: nat)
    requires FirstLineWith(lines, marker) == Some(h)
    ensures CamerasAfter(lines, marker) == ScanFrom(lines, h + 1)
  {
  }

  /** Only the lines right after the first marked line `h` are scanned: once a
      line `e` after it lacks a quote, any output that agrees up to `e` (one
      with a second header after it included) lists the same cameras. */
  lemma LaterLinesIgnored(lines: seq<string>, other: seq<string>, marker: string, h: nat, e: nat)
    requires FirstLineWith(lines, marker) == Some(h) && h < e < |lines|
    requires e < |other| && lines[..e + 1] == other[..e + 1]
    requires '"' !in lines[e]
    ensures CamerasAfter(other, marker) == CamerasAfter(lines, marker)
  {
    FirstLineWithOfPrefix(lines, other, marker, e + 1);
    ScanIgnoresRest(lines, other, h + 1, e);
    CamerasAfterAt(lines, marker, h);
    CamerasAfterAt(other, marker, h);
  }

  /** The scan loop of the handler: from line `start`, collect the captures of
      consecutive lines that contain a quote. */
  method ScanDevices(lines: seq<string>, start: nat) returns (cameras: seq<Camera>)
    requires start <= |lines|
    ensures cameras == ScanFrom(lines, start)
  {
    cameras := [];
    var i := start;
    while i < |lines| && '"' in lines[i]
      invariant start <= i <= |lines|
      invariant cameras + ScanFrom(lines, i) == ScanFrom(lines, start)
    {
      var found := QuotedName(lines[i]);
      ghost var before := cameras;
      if found.Some? {
        cameras := cameras + [Camera(found.value, found.value)];
      }
      assert cameras == before + LineCameras(lines[i]);
      AppendAssociative(before, LineCameras(lines[i]), ScanFrom(lines, i + 1));
      i := i + 1;
    }
    assert ScanFrom(lines, i) == [];
    assert cameras == cameras + ScanFrom(lines, i);
  }

  /** The `/api/cameras` handler: split the standard error of ffmpeg into lines,
      find the first header, and collect the quoted device names that follow. */
  method ListCameras(stderr: string) returns (cameras: seq<Camera>)
    ensures cameras == CamerasIn(Split(stderr, '\n'))
  {
    var lines := Split(stderr, '\n');
    var i := 0;
    while i < |lines|
      invariant 0 <= i <= |lines|
      invariant FirstLineWith(lines, VideoDevicesHeader) ==
        match FirstLineWith(lines[i..], VideoDevicesHeader) case None => None case Some(k) => Some(k + i)
    {
      FirstLineWithFrom(lines, VideoDevicesHeader, i);
      if Contains(lines[i], VideoDevicesHeader) {
        cameras := ScanDevices(lines, i + 1);
        return;
      }
      i := i + 1;
    }
    assert lines[i..] == [];
    cameras := [];
  }

  // ---------------------------------------------------------------------------
  // The user store (server.js:27-45)

  /** A stored user record: the submitted fields plus a generated id and a
      creation time. */
  datatype User = User(id: string, name: string, contact: string, carPlate: string,
                       imageUrl: string, createdAt: string)

  /** `db.data.users`, the list persisted in db.json. */
  class UserStore {
    var users: seq<User>

    /** `users` as read from db.json; `{ users: [] }` when the file is new. */
    constructor (persisted: seq<User>)
      ensures users == persisted
    {
      users := persisted;
    }

    /** POST /api/users: append one record built from the submitted fields, a
        fresh `id` and the time `createdAt` (both supplied by the caller). */
    method Register(name: string, contact: string, carPlate: string, imageUrl: string,
                    id: string, createdAt: string)
      returns (created: User)
      modifies this
      ensures created == User(id, name, contact, carPlate, imageUrl, createdAt)
      ensures users == old(users) + [created]
    {
      created := User(id, name, contact, carPlate, imageUrl, createdAt);
      users := users + [created];
    }

    /** GET /api/users: the current list, unchanged. */
    method List() returns (all: seq<User>)
      ensures all == users
    {
      all := users;
    }
  }

  /** Registering and then listing shows the new user last, with the submitted
      fields unchanged, and every earlier user where it was. */
  method RegisterThenList(store: UserStore, name: string, contact: string, carPlate: string,
                          imageUrl: string, id: string, createdAt: string)
    returns (all: seq<User>)
    modifies store
    ensures |all| == |old(store.users)| + 1
    ensures all[..|all| - 1] == old(store.users)
    ensures var u := all[|all| - 1];
      u.name == name && u.contact == contact && u.carPlate == carPlate && u.imageUrl == imageUrl
  {
    var created := store.Register(name, contact, carPlate, imageUrl, id, createdAt);
    all := store.List();
  }
}
