/** The clip pool: which files of the clip directory are videos, opening them
    in listing order, and the optional one-off shuffle
    (VideoProcessor.run, music_video_maker.py lines 70-74 and 132-137).
    The directory listing, the decoder and the random source are inputs. */
module ClipPool {
  import opened Outcomes

  /** What the run reads from one opened video file. A frame rate of 0 stands
      for a clip that reports none. */
  datatype Clip = Clip(duration: real, width: int, height: int, fps: real, hasAudio: bool)

  /** Lower-casing, on the ASCII letters. */
  function LowerChar(c: char): char
  {
    if 'A' <= c <= 'Z' then (c as int + 32) as char else c
  }

  /** `str.lower` on ASCII: no capital is left, each capital becomes the same
      letter in lower case, and every other character is kept. */
  function Lower(s: string): (r: string)
    ensures |r| == |s|
    ensures forall i :: 0 <= i < |r| ==> !('A' <= r[i] <= 'Z')
    ensures forall i :: 0 <= i < |s| && 'A' <= s[i] <= 'Z' ==>
              'a' <= r[i] <= 'z' && r[i] as int - 'a' as int == s[i] as int - 'A' as int
    ensures forall i :: 0 <= i < |s| && !('A' <= s[i] <= 'Z') ==> r[i] == s[i]
  {
    seq(|s|, i requires 0 <= i < |s| => LowerChar(s[i]))
  }

  /** Lower-casing twice is lower-casing once. */
  lemma LowerIdempotent(s: string)
    ensures Lower(Lower(s)) == Lower(s)
  {
  }

  predicate EndsWith(s: string, suffix: string)
  {
    |suffix| <= |s| && s[|s| - |suffix|..] == suffix
  }

  /** `f.lower().endswith(('.mp4', '.avi', '.mov', '.mkv'))` */
  predicate IsVideoFile(name: string)
  {
    var l := Lower(name);
    EndsWith(l, ".mp4") || EndsWith(l, ".avi") || EndsWith(l, ".mov") || EndsWith(l, ".mkv")
  }

  /** A video file name ends in a dot and three more characters. */
  lemma VideoFileSuffix(name: string)
    requires IsVideoFile(name)
    ensures |name| >= 4 && name[|name| - 4] == '.'
  {
  }

  /** The suffix test ignores case: a name and its lower-cased form are
      video files alike. */
  lemma IsVideoFileIgnoresCase(name: string)
    ensures IsVideoFile(name) <==> IsVideoFile(Lower(name))
  {
    LowerIdempotent(name);
  }

  /** The list comprehension of lines 70-71: the video files of a listing. */
  function SelectVideos(names: seq<string>): (r: seq<string>)
    ensures |r| <= |names|
    ensures forall f :: f in r <==> f in names && IsVideoFile(f)
  {
    if names == [] then []
    else
      var rest := SelectVideos(names[1..]);
      assert forall f :: f in names <==> f == names[0] || f in names[1..] by {
        assert names == [names[0]] + names[1..];
      }
      if IsVideoFile(names[0]) then [names[0]] + rest else rest
  }

  /** Selection works name by name: it keeps the input order, since the
      selection of a concatenation is the concatenation of the selections. */
  lemma {:induction false} SelectVideosAppend(a: seq<string>, b: seq<string>)
    ensures SelectVideos(a + b) == SelectVideos(a) + SelectVideos(b)
  {
    if a == [] {
      assert a + b == b;
    } else {
      assert (a + b)[1..] == a[1..] + b;
      SelectVideosAppend(a[1..], b);
    }
  }

  /** The selection of one name is that name exactly when it is a video. */
  lemma SelectVideosSingle(f: string)
    ensures SelectVideos([f]) == if IsVideoFile(f) then [f] else []
  {
    assert [f][1..] == [];
  }

  /** Extensions are matched whatever their case; other files are skipped. */
  lemma SelectVideosExample()
    ensures SelectVideos(["a.MP4", "b.txt"]) == ["a.MP4"]
  {
    assert IsVideoFile("a.MP4") by {
      var l := Lower("a.MP4");
      assert l[1] == '.' && l[2] == 'm' && l[3] == 'p' && l[4] == '4';
      assert l[1..] == ".mp4";
    }
    assert !IsVideoFile("b.txt") by {
      assert Lower("b.txt")[4] == 't';
    }
    assert ["a.MP4", "b.txt"][1..] == ["b.txt"];
    assert ["b.txt"][1..] == [];
  }

  /** The decoder can open every file. */
  predicate AllDecoded(files: seq<string>, decoded: map<string, Clip>)
  {
    forall k :: 0 <= k < |files| ==> files[k] in decoded
  }

  /** files[k] is the first file the decoder cannot open. */
  predicate FirstUndecoded(files: seq<string>, decoded: map<string, Clip>, k: int)
  {
    0 <= k < |files| && files[k] !in decoded && forall j :: 0 <= j < k ==> files[j] in decoded
  }

  /** The clips of `files`, in listing order. */
  function Opened(files: seq<string>, decoded: map<string, Clip>): seq<Clip>
    requires AllDecoded(files, decoded)
  {
    seq(|files|, k requires 0 <= k < |files| => decoded[files[k]])
  }

  /** Lines 133-135: open every selected file, in order. A file the decoder
      cannot open stops the run with an error naming the first such file. */
  method OpenClips(files: seq<string>, decoded: map<string, Clip>) returns (r: Result<seq<Clip>>)
    ensures r.Ok? <==> AllDecoded(files, decoded)
    ensures r.Ok? ==> r.value == Opened(files, decoded)
    ensures r.Err? ==> exists k :: FirstUndecoded(files, decoded, k) &&
                                   r.error == ClipUndecodable(files[k])
  {
    var clips: seq<Clip> := [];
    for i := 0 to |files|
      invariant |clips| == i
      invariant forall k :: 0 <= k < i ==> files[k] in decoded && clips[k] == decoded[files[k]]
    {
      if files[i] !in decoded {
        return Err(ClipUndecodable(files[i]));
      }
      clips := clips + [decoded[files[i]]];
    }
    r := Ok(clips);
  }

  /** `random.shuffle(clips)` at line 137: the Fisher-Yates pass the Python
      library performs, from the back, swapping each position with one at or
      before it. `draws` stands for the random source: the swap partner of
      position i is `draws[i] % (i + 1)`. */
  method Shuffle<T>(a: array<T>, draws: seq<nat>)
    requires |draws| >= a.Length
    modifies a
    ensures multiset(a[..]) == old(multiset(a[..]))
  {
    var i := a.Length - 1;
    while i >= 1
      invariant -1 <= i < a.Length
      invariant multiset(a[..]) == old(multiset(a[..]))
    {
      var j := draws[i] % (i + 1);
      a[i], a[j] := a[j], a[i];
      i := i - 1;
    }
  }
}
