/**
 * The field merge of `PostSerializer` (social_network/serializers.py):
 * `update` keeps every field the request leaves out and writes the nested
 * video record attribute by attribute; `create` builds the post and, given
 * nested data, a new video record from exactly that data.
 */
module SocialSerializers {
  import opened Wrappers
  import opened SocialModels

  /** Validated data of a partial update: a field is None when the request leaves it out. */
  datatype PostUpdate = PostUpdate(
    title: Option<string>,
    content: Option<string>,
    image: Option<string>,
    videoUrl: Option<map<string, Field>>)

  /** Validated data of a creation: title and content are required fields. */
  datatype PostCreate = PostCreate(
    title: string,
    content: string,
    image: Option<string>,
    videoUrl: Option<map<string, Field>>)

  function Merge<T>(given: Option<T>, current: T): T {
    if given.Some? then given.value else current
  }

  /** `if video_url_data:` — None and an empty dictionary are both false. */
  predicate HasNested(data: Option<map<string, Field>>) {
    data.Some? && data.value != map[]
  }

  /** `update`: returns the instance it was given, with the merge applied. */
  method Update(instance: Post, data: PostUpdate) returns (r: Post)
    modifies instance, instance.videoUrl
    ensures r == instance
    ensures instance.title == Merge(data.title, old(instance.title))
    ensures instance.content == Merge(data.content, old(instance.content))
    ensures instance.image == Merge(data.image, old(instance.image))
    ensures instance.likes == old(instance.likes)
    ensures !HasNested(data.videoUrl) ==>
      instance.videoUrl == old(instance.videoUrl)
      && (instance.videoUrl != null ==> instance.videoUrl.attrs == old(instance.videoUrl.attrs))
    ensures HasNested(data.videoUrl) && old(instance.videoUrl) != null ==>
      instance.videoUrl == old(instance.videoUrl)
      && instance.videoUrl.attrs == old(instance.videoUrl.attrs) + data.videoUrl.value
    ensures HasNested(data.videoUrl) && old(instance.videoUrl) == null ==>
      instance.videoUrl != null && fresh(instance.videoUrl)
      && instance.videoUrl.attrs == data.videoUrl.value
  {
    instance.title := Merge(data.title, instance.title);
    instance.content := Merge(data.content, instance.content);
    instance.image := Merge(data.image, instance.image);
    if HasNested(data.videoUrl) {
      var nested := data.videoUrl.value;
      if instance.videoUrl != null {
        var record := instance.videoUrl;
        // one setattr per nested attribute; the order does not matter, the keys are distinct
        var remaining := nested.Keys;
        while remaining != {}
          invariant remaining <= nested.Keys
          invariant record.attrs == old(record.attrs) + (map k | k in nested && k !in remaining :: nested[k])
          modifies record
          decreases remaining
        {
          var k :| k in remaining;
          record.SetAttr(k, nested[k]);
          remaining := remaining - {k};
        }
        assert (map k | k in nested && k !in remaining :: nested[k]) == nested;
      } else {
        instance.videoUrl := new VideoRecord(nested);
      }
    }
    r := instance;
  }

  /**
   * `create`: a new post from the data (the image defaults), with a new
   * video record built from exactly the nested data when there is any.
   */
  method Create(id: PostId, author: UserId, data: PostCreate) returns (post: Post)
    ensures fresh(post)
    ensures post.id == id && post.author == author
    ensures post.title == data.title && post.content == data.content
    ensures post.image == Merge(data.image, DefaultPostImage)
    ensures post.likes == {}
    ensures !HasNested(data.videoUrl) ==> post.videoUrl == null
    ensures HasNested(data.videoUrl) ==>
      post.videoUrl != null && fresh(post.videoUrl) && post.videoUrl.attrs == data.videoUrl.value
  {
    post := new Post(id, author, data.title, data.content, data.image);
    if HasNested(data.videoUrl) {
      var record := new VideoRecord(data.videoUrl.value);
      post.videoUrl := record;
    }
  }
}
