/** Label sets: the labels of a node, a pod or a namespace, and the ones a selector asks for. */
module LabelSets {
  /** Every wanted label is there, with the wanted value. */
  predicate Contains(labels: map<string, string>, wanted: map<string, string>) {
    forall k | k in wanted :: k in labels && labels[k] == wanted[k]
  }
}
