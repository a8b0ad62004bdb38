/** `blogReducer` of frontend/src/redux/reducers/blog.js. Each handler
    assigns fields of the draft state in place; every request sets the
    loading flag and every success or failure clears it. Blog objects and
    messages are carried as opaque values; fields the initial state lacks
    start as `None`. */
module BlogReducer {
  import opened Basics

  /** The five request/success/failure families. */
  datatype Flow = Create | ShopBlogs | Delete | AllBlogs | Details

  class BlogStore<Blog> {
    var isLoading: bool
    var blog: Option<Blog>
    var success: Option<bool>
    var error: Option<string>
    var blogs: Option<seq<Blog>>
    var message: Option<string>
    var allBlogs: Option<seq<Blog>>
    var blogDetails: Option<Blog>

    constructor ()
      ensures isLoading && blog == None && success == None && error == None
      ensures blogs == None && message == None && allBlogs == None && blogDetails == None
    {
      isLoading := true;
      blog := None;
      success := None;
      error := None;
      blogs := None;
      message := None;
      allBlogs := None;
      blogDetails := None;
    }

    /** Any `*Request`: only the loading flag changes. */
    method Request(flow: Flow)
      modifies this`isLoading
      ensures isLoading
    {
      isLoading := true;
    }

    /** Any failure; a failed create also resets `success`. */
    method Fail(flow: Flow, e: string)
      modifies this`isLoading, this`error, this`success
      ensures !isLoading && error == Some(e)
      ensures flow == Create ==> success == Some(false)
      ensures flow != Create ==> success == old(success)
    {
      isLoading := false;
      error := Some(e);
      if flow == Create {
        success := Some(false);
      }
    }

    method BlogCreateSuccess(b: Blog)
      modifies this`isLoading, this`blog, this`success
      ensures !isLoading && blog == Some(b) && success == Some(true)
    {
      isLoading := false;
      blog := Some(b);
      success := Some(true);
    }

    /** `getAllblogsShopSuccess` writes the shop's list, never `allBlogs`. */
    method GetAllBlogsShopSuccess(list: seq<Blog>)
      modifies this`isLoading, this`blogs
      ensures !isLoading && blogs == Some(list)
    {
      isLoading := false;
      blogs := Some(list);
    }

    method DeleteBlogSuccess(m: string)
      modifies this`isLoading, this`message
      ensures !isLoading && message == Some(m)
    {
      isLoading := false;
      message := Some(m);
    }

    /** `getAllblogsSuccess` writes `allBlogs`, never the shop's list. */
    method GetAllBlogsSuccess(list: seq<Blog>)
      modifies this`isLoading, this`allBlogs
      ensures !isLoading && allBlogs == Some(list)
    {
      isLoading := false;
      allBlogs := Some(list);
    }

    method BlogDetailsSuccess(b: Blog)
      modifies this`isLoading, this`blogDetails
      ensures !isLoading && blogDetails == Some(b)
    {
      isLoading := false;
      blogDetails := Some(b);
    }

    /** Resets `error` (to null) and nothing else. */
    method ClearErrors()
      modifies this`error
      ensures error == None
    {
      error := None;
    }

    /** Resets `message` (to null) and `success`. */
    method ClearMessages()
      modifies this`message, this`success
      ensures message == None && success == Some(false)
    {
      message := None;
      success := Some(false);
    }
  }
}
