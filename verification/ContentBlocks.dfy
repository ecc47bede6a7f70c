/**
  Content blocks of messages. A Markdown block is a handle into the application's
  entity store; the store is a sequence of append-only texts and a handle its index.
 */
module ContentBlocks {
  import opened Prelude
  import opened Utf8

  type Id = string
  type BlockId = nat
  type Store = seq<Text>

  /** A block as the protocol delivers it. What other libraries make of links and images comes with it. */
  datatype ContentBlock =
    | TextBlock(text: Text)
    | LinkBlock(uri: Text, markdown: Text)
    | ImageBlock(data: Text, decodes: bool)
    | OtherBlock(markdown: Text)

  datatype Block = Empty | Markdown(id: BlockId) | Link(markdown: Text) | Image

  const IMAGE_MARKDOWN: Text := [0x60, 0x49, 0x6D, 0x61, 0x67, 0x65, 0x60] // `Image`

  function Rendered(cb: ContentBlock): Text {
    match cb
    case TextBlock(text) => text
    case LinkBlock(_, markdown) => markdown
    case ImageBlock(_, _) => IMAGE_MARKDOWN
    case OtherBlock(markdown) => markdown
  }

  function AppendText(store: Store, b: BlockId, text: Text): Store {
    if b < |store| then store[b := store[b] + text] else store
  }

  /** `ContentBlock::append`: the new store and what the block has become. */
  function Append(store: Store, block: Block, cb: ContentBlock): (r: (Store, Block)) {
    match block
    case Empty =>
      if cb.LinkBlock? then (store, Link(cb.markdown))
      else if cb.ImageBlock? && cb.decodes then (store, Image)
      else (store + [Rendered(cb)], Markdown(|store|))
    case Markdown(b) => (AppendText(store, b, Rendered(cb)), block)
    case Link(md) => (store + [md + [NEWLINE] + Rendered(cb)], Markdown(|store|))
    case Image => (store + [IMAGE_MARKDOWN + [NEWLINE] + Rendered(cb)], Markdown(|store|))
  }

  /** `ContentBlock::new_combined`. */
  function Combined(store: Store, block: Block, cbs: seq<ContentBlock>): (Store, Block)
    decreases |cbs|
  {
    if cbs == [] then (store, block)
    else
      var (store', block') := Append(store, block, cbs[0]);
      Combined(store', block', cbs[1..])
  }
}
