/**
  Image references of the form `name[:tag]`, as the command line accepts them:
  the reference is split at its first colon, and a reference without a colon
  names the tag `latest`.
 */
module ImageRef {
  import opened Common
  import opened PyText

  const DEFAULT_TAG := "latest"

  /**
    Splits an image reference into its name and tag. Total: every string
    decodes. The name never holds a colon; with a colon present, name, colon
    and tag put back together give the reference again, so the tag is exactly
    what follows the first colon (possibly empty, possibly holding further
    colons); without one, the tag defaults to `latest`.
   */
  function DecodeImage(image: string): (r: (string, string))
    ensures ':' !in r.0
    ensures ':' !in image ==> r == (image, DEFAULT_TAG)
    ensures ':' in image ==> r.0 + ":" + r.1 == image
  {
    match Find(image, ':')
    case None => (image, DEFAULT_TAG)
    case Some(i) =>
      assert image[..i] + ":" + image[i + 1..] == image by {
        assert image == image[..i] + [image[i]] + image[i + 1..];
      }
      (image[..i], image[i + 1..])
  }

  /** Joining any colon-free name and any tag with a colon decodes back to that name and tag. */
  lemma JoinThenDecode(name: string, tag: string)
    requires ':' !in name
    ensures DecodeImage(name + ":" + tag) == (name, tag)
  {
    var image := name + ":" + tag;
    assert image[|name|] == ':';
    assert image[..|name|] == name;
    var i := Find(image, ':').value;
    assert i == |name|;
    assert image[..i] == name && image[i + 1..] == tag;
  }

  /** An explicit empty tag is kept: `x:` names tag "" and not `latest`. */
  lemma EmptyTagKept()
    ensures DecodeImage("x:") == ("x", "")
  {
    JoinThenDecode("x", "");
    assert "x" + ":" + "" == "x:";
  }

  /** Only the first colon splits: `host:5000:v1` names `host` with tag `5000:v1`. */
  lemma LaterColonsStayInTag()
    ensures DecodeImage("host:5000:v1") == ("host", "5000:v1")
  {
    JoinThenDecode("host", "5000:v1");
    assert "host" + ":" + "5000:v1" == "host:5000:v1";
  }
}
