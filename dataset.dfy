/**
 * The training-set builder (training/create_dataset.py): walk `data/<user>/<letter>/<image>`,
 * and for every detected hand with exactly 21 keypoints append its feature vector, the
 * letter directory's name and the user directory's name to `data`, `labels` and `users`.
 * The directory listing and the detector's output are given as a tree; image decoding,
 * progress printing and the pickle file are not modelled.
 */
module Dataset {
  import opened Landmarks

  /** An image file with the hands the detector finds in it (none when it finds none). */
  datatype ImageFile = ImageFile(name: string, hands: seq<seq<Keypoint>>)
  /** An entry of a user directory; only directories are processed. */
  datatype LetterEntry = LetterEntry(name: string, isDir: bool, images: seq<ImageFile>)
  /** An entry of the data directory; only directories are processed. */
  datatype UserEntry = UserEntry(name: string, isDir: bool, letters: seq<LetterEntry>)

  /** One training sample: a row of `data` with its `labels` and `users` entries. */
  datatype Sample = Sample(features: seq<real>, letter: string, user: string)

  /** What one hand contributes: a sample if it has 21 keypoints and its vector has 42 features. */
  function HandSample(h: seq<Keypoint>, letter: string, user: string): (r: seq<Sample>)
  {
    if |h| == HandKeypoints && |Features(h)| == FeatureCount then [Sample(Features(h), letter, user)] else []
  }

  function HandSamples(hands: seq<seq<Keypoint>>, letter: string, user: string): (r: seq<Sample>)
  {
    if |hands| == 0 then []
    else HandSamples(hands[..|hands| - 1], letter, user) + HandSample(hands[|hands| - 1], letter, user)
  }

  function ImageSamples(images: seq<ImageFile>, letter: string, user: string): (r: seq<Sample>)
  {
    if |images| == 0 then []
    else ImageSamples(images[..|images| - 1], letter, user) + HandSamples(images[|images| - 1].hands, letter, user)
  }

  function LetterSample(l: LetterEntry, user: string): (r: seq<Sample>)
  {
    if l.isDir then ImageSamples(l.images, l.name, user) else []
  }

  function LetterSamples(letters: seq<LetterEntry>, user: string): (r: seq<Sample>)
  {
    if |letters| == 0 then []
    else LetterSamples(letters[..|letters| - 1], user) + LetterSample(letters[|letters| - 1], user)
  }

  function UserSample(u: UserEntry): (r: seq<Sample>)
  {
    if u.isDir then LetterSamples(u.letters, u.name) else []
  }

  /** Every sample the script collects, in directory-listing order. */
  function DatasetSamples(tree: seq<UserEntry>): (r: seq<Sample>)
  {
    if |tree| == 0 then []
    else DatasetSamples(tree[..|tree| - 1]) + UserSample(tree[|tree| - 1])
  }

  /** `data`, `labels` and `users` are the three columns of the same samples. */
  ghost predicate Columns(data: seq<seq<real>>, labels: seq<string>, users: seq<string>, s: seq<Sample>)
  {
    && |data| == |s| && |labels| == |s| && |users| == |s|
    && forall k :: 0 <= k < |s| ==> data[k] == s[k].features && labels[k] == s[k].letter && users[k] == s[k].user
  }

  lemma ColumnsSnoc(data: seq<seq<real>>, labels: seq<string>, users: seq<string>, s: seq<Sample>,
                    f: seq<real>, letter: string, user: string)
    requires Columns(data, labels, users, s)
    ensures Columns(data + [f], labels + [letter], users + [user], s + [Sample(f, letter, user)])
  {
  }

  lemma ImageSamplesStep(images: seq<ImageFile>, k: nat, letter: string, user: string)
    requires k < |images|
    ensures ImageSamples(images[..k + 1], letter, user)
         == ImageSamples(images[..k], letter, user) + HandSamples(images[k].hands, letter, user)
  {
    assert images[..k + 1][..k] == images[..k];
  }

  lemma LetterSamplesStep(letters: seq<LetterEntry>, j: nat, user: string)
    requires j < |letters|
    ensures LetterSamples(letters[..j + 1], user) == LetterSamples(letters[..j], user) + LetterSample(letters[j], user)
  {
    assert letters[..j + 1][..j] == letters[..j];
  }

  /**
   * The script's three module-level lists, which its loops grow in place; `samples` is
   * the list of rows they hold between them.
   */
  class TrainingSet {
    var data: seq<seq<real>>
    var labels: seq<string>
    var users: seq<string>
    ghost var samples: seq<Sample>

    /** The three lists always have equal length: entry k of each belongs to sample k. */
    ghost predicate Valid()
      reads this
    {
      Columns(data, labels, users, samples)
    }

    constructor ()
      ensures Valid() && samples == [] && data == [] && labels == [] && users == []
    {
      data, labels, users := [], [], [];
      samples := [];
    }

    /**
     * The per-hand body: a hand with 21 keypoints gets a fresh feature vector, which is
     * appended with the letter and the user when it has 42 features.
     */
    method AddHand(h: seq<Keypoint>, letter: string, user: string)
      requires Valid()
      modifies this
      ensures Valid()
      ensures samples == old(samples) + HandSample(h, letter, user)
    {
      if |h| == HandKeypoints {
        var features, xs, ys := NormaliseHand(h);
        if |features| == FeatureCount {
          ColumnsSnoc(data, labels, users, samples, features, letter, user);
          data := data + [features];
          labels := labels + [letter];
          users := users + [user];
          samples := samples + [Sample(features, letter, user)];
        }
      }
    }

    /** The loop over the hands detected in one image (none when the detector finds none). */
    method AddImage(img: ImageFile, letter: string, user: string)
      requires Valid()
      modifies this
      ensures Valid()
      ensures samples == old(samples) + HandSamples(img.hands, letter, user)
    {
      var m := 0;
      while m < |img.hands|
        invariant 0 <= m <= |img.hands|
        invariant Valid()
        invariant samples == old(samples) + HandSamples(img.hands[..m], letter, user)
      {
        assert img.hands[..m + 1][..m] == img.hands[..m];
        AddHand(img.hands[m], letter, user);
        m := m + 1;
      }
      assert img.hands[..m] == img.hands;
    }

    /** The loop over the images of a letter directory; other entries are skipped. */
    method AddLetter(l: LetterEntry, user: string)
      requires Valid()
      modifies this
      ensures Valid()
      ensures samples == old(samples) + LetterSample(l, user)
    {
      if l.isDir {
        var k := 0;
        while k < |l.images|
          invariant 0 <= k <= |l.images|
          invariant Valid()
          invariant samples == old(samples) + ImageSamples(l.images[..k], l.name, user)
        {
          ImageSamplesStep(l.images, k, l.name, user);
          AddImage(l.images[k], l.name, user);
          k := k + 1;
        }
        assert l.images[..k] == l.images;
      }
    }

    /** The loop over the letter directories of a user directory; other entries are skipped. */
    method AddUser(u: UserEntry)
      requires Valid()
      modifies this
      ensures Valid()
      ensures samples == old(samples) + UserSample(u)
    {
      if u.isDir {
        var j := 0;
        while j < |u.letters|
          invariant 0 <= j <= |u.letters|
          invariant Valid()
          invariant samples == old(samples) + LetterSamples(u.letters[..j], u.name)
        {
          LetterSamplesStep(u.letters, j, u.name);
          AddLetter(u.letters[j], u.name);
          j := j + 1;
        }
        assert u.letters[..j] == u.letters;
      }
    }
  }

  /**
   * The whole script: the loop over the user directories. The three lists end up the
   * columns of `DatasetSamples(tree)`.
   */
  method CreateDataset(tree: seq<UserEntry>) returns (t: TrainingSet)
    ensures t.Valid() && t.samples == DatasetSamples(tree)
    ensures |t.data| == |t.labels| == |t.users| == |DatasetSamples(tree)|
  {
    t := new TrainingSet();
    var i := 0;
    while i < |tree|
      invariant 0 <= i <= |tree|
      invariant t.Valid()
      invariant t.samples == DatasetSamples(tree[..i])
    {
      assert tree[..i + 1][..i] == tree[..i];
      t.AddUser(tree[i]);
      i := i + 1;
    }
    assert tree[..i] == tree;
  }

  /** The 42-feature guard never rejects a 21-keypoint hand. */
  lemma HandSampleWhenComplete(h: seq<Keypoint>, letter: string, user: string)
    ensures HandSample(h, letter, user) == if |h| == HandKeypoints then [Sample(Features(h), letter, user)] else []
  {
    FeaturesShape(h);
  }

  /** Every sample has exactly 42 non-negative features. */
  ghost predicate WellFormed(s: Sample)
  {
    |s.features| == FeatureCount && forall k :: 0 <= k < |s.features| ==> s.features[k] >= 0.0
  }

  lemma {:induction false} HandSamplesFacts(hands: seq<seq<Keypoint>>, letter: string, user: string)
    ensures |HandSamples(hands, letter, user)| <= |hands|
    ensures forall s :: s in HandSamples(hands, letter, user) ==> WellFormed(s) && s.letter == letter && s.user == user
  {
    if |hands| > 0 {
      var h := hands[|hands| - 1];
      HandSamplesFacts(hands[..|hands| - 1], letter, user);
      FeaturesNonNegative(h);
    }
  }

  lemma {:induction false} ImageSamplesFacts(images: seq<ImageFile>, letter: string, user: string)
    ensures forall s :: s in ImageSamples(images, letter, user) ==> WellFormed(s) && s.letter == letter && s.user == user
  {
    if |images| > 0 {
      ImageSamplesFacts(images[..|images| - 1], letter, user);
      HandSamplesFacts(images[|images| - 1].hands, letter, user);
    }
  }

  lemma {:induction false} LetterSamplesFacts(letters: seq<LetterEntry>, user: string)
    ensures forall s :: s in LetterSamples(letters, user) ==>
      WellFormed(s) && s.user == user && exists l :: l in letters && l.isDir && s.letter == l.name
  {
    if |letters| > 0 {
      var init, l := letters[..|letters| - 1], letters[|letters| - 1];
      LetterSamplesFacts(init, user);
      if l.isDir {
        ImageSamplesFacts(l.images, l.name, user);
      }
      forall s | s in LetterSamples(letters, user)
        ensures WellFormed(s) && s.user == user && exists l' :: l' in letters && l'.isDir && s.letter == l'.name
      {
        if s in LetterSamples(init, user) {
          var l' :| l' in init && l'.isDir && s.letter == l'.name;
          assert l' in letters;
        } else {
          assert l in letters;
        }
      }
    }
  }

  /**
   * Every sample has 42 non-negative features, its label is the name of a letter
   * directory and its user the name of the user directory that letter directory is in.
   */
  lemma {:induction false} DatasetSamplesFacts(tree: seq<UserEntry>)
    ensures forall s :: s in DatasetSamples(tree) ==>
      WellFormed(s) && exists u, l :: u in tree && u.isDir && l in u.letters && l.isDir && s.user == u.name && s.letter == l.name
  {
    if |tree| > 0 {
      var init, u := tree[..|tree| - 1], tree[|tree| - 1];
      DatasetSamplesFacts(init);
      if u.isDir {
        LetterSamplesFacts(u.letters, u.name);
      }
      forall s | s in DatasetSamples(tree)
        ensures WellFormed(s) && exists u', l :: u' in tree && u'.isDir && l in u'.letters && l.isDir && s.user == u'.name && s.letter == l.name
      {
        if s in DatasetSamples(init) {
          var u', l :| u' in init && u'.isDir && l in u'.letters && l.isDir && s.user == u'.name && s.letter == l.name;
          assert u' in tree;
        } else {
          assert u in tree;
        }
      }
    }
  }

  /**
   * An image contributes exactly one sample per hand with 21 keypoints: none when no hand
   * is detected, none for a hand with any other keypoint count.
   */
  lemma {:induction false} HandSamplesCount(hands: seq<seq<Keypoint>>, letter: string, user: string)
    ensures |HandSamples(hands, letter, user)| == CompleteHands(hands)
  {
    if |hands| > 0 {
      HandSamplesCount(hands[..|hands| - 1], letter, user);
      HandSampleWhenComplete(hands[|hands| - 1], letter, user);
    }
  }
}
